/**
  The header chain of headers/chain.go as a value: the four linked structures
  byHash, at, canon and lowest, the tip, and the three sections that Observe
  runs under the lock (re-delivery, re-anchoring through Lookup, attaching).
  The Store class (HeaderStore.dfy) refines these functions step by step.
*/
module HeaderChain {
  import opened Bytes

  /** A uint32 height. */
  type Height = h: int | 0 <= h < 0x1_0000_0000

  const MAX_HEIGHT: Height := 0xffff_ffff

  /** h + 1 in uint32 arithmetic. */
  function Next(h: Height): Height { if h == MAX_HEIGHT then 0 else h + 1 }

  datatype Options = Options(anchorHash: Hash, anchorHeight: Height, minBits: nat, window: Height)

  /** One held header; viaAnchor marks one fetched to re-anchor across a gap. */
  datatype Entry = Entry(root: Hash, prev: Hash, viaAnchor: bool)

  datatype Chain = Chain(
    byHash: map<Hash, Height>,
    at: map<Height, map<Hash, Entry>>,
    canon: map<Height, Hash>,
    tip: Hash,
    tipH: Height,
    lowest: Height,
    historyTop: Height)

  function Init(o: Options): Chain
  {
    Chain(map[o.anchorHash := o.anchorHeight], map[], map[],
          o.anchorHash, o.anchorHeight, o.anchorHeight, o.anchorHeight)
  }

  predicate Held(c: Chain, h: Height, x: Hash)
  {
    h in c.at && x in c.at[h]
  }

  function EntryAt(c: Chain, h: Height, x: Hash): Entry
    requires Held(c, h, x)
  {
    c.at[h][x]
  }

  /** x at height h records p as its parent, and p is known one height below. */
  predicate Parent(c: Chain, h: Height, x: Hash, p: Hash)
  {
    && Held(c, h, x)
    && EntryAt(c, h, x).prev == p
    && p != ZERO_HASH
    && h > 0
    && p in c.byHash
    && c.byHash[p] == h - 1
  }

  // ---------------------------------------------------------------- operations

  function Row(at: map<Height, map<Hash, Entry>>, h: Height): map<Hash, Entry>
  {
    if h in at then at[h] else map[]
  }

  function WithEntry(row: map<Hash, Entry>, x: Hash, e: Entry): map<Hash, Entry>
  {
    row[x := e]
  }

  function Put(c: Chain, h: Height, x: Hash, e: Entry): Chain
  {
    c.(at := c.at[h := WithEntry(Row(c.at, h), x, e)], lowest := if h < c.lowest then h else c.lowest)
  }

  /** A header is recorded in byHash and in at. */
  function Grow(c: Chain, h: Height, x: Hash, e: Entry): Chain
  {
    Put(c.(byHash := c.byHash[x := h]), h, x, e)
  }

  /** Walks back from a new tip, rewriting the canonical map until it agrees. */
  function Recanon(c: Chain, x: Hash, h: Height): Chain
    decreases h
  {
    if h in c.canon && c.canon[h] == x then c
    else
      var c' := c.(canon := c.canon[h := x]);
      if Held(c, h, x) && Parent(c, h, x, EntryAt(c, h, x).prev)
      then Recanon(c', EntryAt(c, h, x).prev, h - 1)
      else c'
  }

  /** The lowest height the retention window keeps, 0 when nothing is dropped. */
  function Cutoff(c: Chain, o: Options): Height
  {
    if o.window == 0 || c.tipH < o.window then 0 else c.tipH - o.window
  }

  ghost predicate DroppedIn(at: map<Height, map<Hash, Entry>>, lo: int, hi: int, x: Hash)
  {
    exists h: Height :: lo <= h < hi && h in at && x in at[h]
  }

  ghost function KeepHashes(byHash: map<Hash, Height>, at: map<Height, map<Hash, Entry>>, lo: int, hi: int)
    : map<Hash, Height>
  {
    map x | x in byHash && !DroppedIn(at, lo, hi, x) :: byHash[x]
  }

  ghost function KeepHeights<V>(m: map<Height, V>, lo: int, hi: int): map<Height, V>
  {
    map h | h in m && !(lo <= h < hi) :: m[h]
  }

  /** Everything recorded in [lowest, cutoff) is dropped, together. */
  ghost function Prune(c: Chain, o: Options): Chain
  {
    var cut := Cutoff(c, o);
    Chain(KeepHashes(c.byHash, c.at, c.lowest, cut),
          KeepHeights(c.at, c.lowest, cut),
          KeepHeights(c.canon, c.lowest, cut),
          c.tip, c.tipH,
          if cut > c.lowest then cut else c.lowest,
          if cut > 0 && cut - 1 > c.historyTop then cut - 1 else c.historyTop)
  }

  /** Section one: a hash already known is promoted to a lane header. */
  function Redeliver(c: Chain, x: Hash): Chain
    requires x in c.byHash
  {
    var h := c.byHash[x];
    if Held(c, h, x) && EntryAt(c, h, x).viaAnchor
    then c.(at := c.at[h := WithEntry(c.at[h], x, EntryAt(c, h, x).(viaAnchor := false))])
    else c
  }

  /** Section two: a parent resolved through Lookup, unless it is known by now. */
  function Reanchor(c: Chain, p: Hash, h: Height, root: Hash): Chain
  {
    if p in c.byHash then c
    else Grow(c, h, p, Entry(root, ZERO_HASH, true))
  }

  predicate MovesTip(c: Chain, prev: Hash, parentH: Height)
  {
    prev == c.tip || Next(parentH) > c.tipH
  }

  function Insert(c: Chain, x: Hash, prev: Hash, root: Hash, parentH: Height): Chain
  {
    Grow(c, Next(parentH), x, Entry(root, prev, false))
  }

  /** Section three: a header whose parent's height is known is recorded, and
      becomes the tip when it extends the tip or is higher. */
  ghost function Attach(c: Chain, o: Options, x: Hash, prev: Hash, root: Hash, parentH: Height): Chain
  {
    var c1 := Insert(c, x, prev, root, parentH);
    if MovesTip(c, prev, parentH)
    then Prune(Recanon(c1.(tip := x, tipH := Next(parentH)), x, Next(parentH)), o)
    else c1
  }

  /** What Lookup answers: None is an error, or no Lookup configured. */
  type Answer = Option<(Height, Hash)>

  predicate Attaches(c: Chain, x: Hash, prev: Hash, answer: Answer)
  {
    x !in c.byHash && (prev in c.byHash || answer.Some?)
  }

  function ParentHeight(c: Chain, prev: Hash, answer: Answer): Height
    requires prev in c.byHash || answer.Some?
  {
    if prev in c.byHash then c.byHash[prev] else answer.value.0
  }

  /** The three sections run without interference, past the work check. */
  ghost function Observe(c: Chain, o: Options, x: Hash, prev: Hash, root: Hash, answer: Answer): Chain
  {
    if x in c.byHash then Redeliver(c, x)
    else if !Attaches(c, x, prev, answer) then c
    else
      var c1 := if prev in c.byHash then c else Reanchor(c, prev, answer.value.0, answer.value.1);
      Attach(c1, o, x, prev, root, ParentHeight(c, prev, answer))
  }

  // ----------------------------------------------------------------- invariant

  /** byHash and at agree: a held hash sits at one height, the one byHash names,
      and the only known hash that is not held is the startup anchor. */
  ghost predicate Indexed(c: Chain, o: Options)
  {
    && o.anchorHash in c.byHash
    && c.byHash[o.anchorHash] == o.anchorHeight
    && (forall h, x :: Held(c, h, x) ==> x in c.byHash && c.byHash[x] == h && x != o.anchorHash)
    && (forall x :: x in c.byHash && x != o.anchorHash ==> Held(c, c.byHash[x], x))
    && (forall h :: h in c.at ==> c.lowest <= h)
  }

  /** Every recorded parent is known one height below, or fell out of the window. */
  ghost predicate Linked(c: Chain, o: Options)
  {
    forall h: Height, x :: Held(c, h, x) && EntryAt(c, h, x).prev != ZERO_HASH ==>
                     h > 0 && (h - 1 < Cutoff(c, o) || Parent(c, h, x, EntryAt(c, h, x).prev))
  }

  /** Every canonical hash is known at the height it is canonical for. */
  ghost predicate Named(c: Chain)
  {
    forall h :: h in c.canon ==> c.canon[h] in c.byHash && c.byHash[c.canon[h]] == h && h <= c.tipH
  }

  predicate ClosedAt(c: Chain, floor: Height, h: Height)
  {
    h in c.canon && h > floor && Held(c, h, c.canon[h]) && Parent(c, h, c.canon[h], EntryAt(c, h, c.canon[h]).prev)
    ==> h - 1 in c.canon && c.canon[h - 1] == EntryAt(c, h, c.canon[h]).prev
  }

  /** The canonical map is closed under recorded parents down to the floor. */
  ghost predicate Closed(c: Chain, floor: Height)
  {
    forall h :: h in c.canon ==> ClosedAt(c, floor, h)
  }

  /** The tip is known at tipH and, once moved, is a canonical lane header. */
  ghost predicate TipOk(c: Chain, o: Options)
  {
    && c.tip in c.byHash
    && c.byHash[c.tip] == c.tipH
    && (c.tip != o.anchorHash ==>
          && Held(c, c.tipH, c.tip) && !EntryAt(c, c.tipH, c.tip).viaAnchor
          && c.tipH in c.canon && c.canon[c.tipH] == c.tip)
  }

  ghost predicate Bounded(c: Chain)
  {
    forall x :: x in c.byHash ==> c.byHash[x] <= c.tipH
  }

  ghost predicate Valid(c: Chain, o: Options)
  {
    Indexed(c, o) && Linked(c, o) && Named(c) && Closed(c, Cutoff(c, o)) && TipOk(c, o) && Bounded(c)
  }
}
