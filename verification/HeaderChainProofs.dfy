/** Every step of the header chain keeps its invariant. */
module HeaderChainProofs {
  import opened Bytes
  import opened HeaderChain

  lemma InitValid(o: Options)
    ensures Valid(Init(o), o)
  {
  }

  /** A header delivered again is a lane header; nothing else changes. */
  lemma RedeliverFrame(c: Chain, x: Hash)
    requires x in c.byHash
    ensures var c' := Redeliver(c, x);
            && c' == c.(at := c'.at) && c'.at.Keys == c.at.Keys
            && (forall h, y :: Held(c', h, y) <==> Held(c, h, y))
            && (forall h, y :: Held(c', h, y) ==> EntryAt(c', h, y).prev == EntryAt(c, h, y).prev)
            && (forall h, y :: Held(c', h, y) ==> EntryAt(c', h, y).root == EntryAt(c, h, y).root)
            && (forall h, y, p :: Parent(c', h, y, p) <==> Parent(c, h, y, p))
            && (forall h, y :: Held(c', h, y) && !(y == x && h == c.byHash[x]) ==> EntryAt(c', h, y) == EntryAt(c, h, y))
            && (Held(c', c.byHash[x], x) ==> !EntryAt(c', c.byHash[x], x).viaAnchor)
  {
    var c' := Redeliver(c, x);
    assert forall h, y :: Held(c', h, y) <==> Held(c, h, y);
  }

  lemma RedeliverValid(c: Chain, o: Options, x: Hash)
    requires Valid(c, o) && x in c.byHash
    ensures Valid(Redeliver(c, x), o)
  {
    RedeliverFrame(c, x);
  }

  /** What holds between the sections however they interleave. */
  ghost predicate Base(c: Chain, o: Options)
  {
    Indexed(c, o) && Linked(c, o) && Named(c)
  }

  /** What holds between the sections of one Observe run alone. */
  ghost predicate Unbounded(c: Chain, o: Options)
  {
    Base(c, o) && Closed(c, Cutoff(c, o)) && TipOk(c, o)
  }

  /** x may be recorded at h: it is new, or already held there. */
  predicate Fresh(c: Chain, o: Options, h: Height, x: Hash)
  {
    x != o.anchorHash && (x in c.byHash ==> c.byHash[x] == h)
  }

  predicate LinkedEntry(c: Chain, o: Options, h: Height, e: Entry)
  {
    e.prev != ZERO_HASH ==>
      h > 0 && (h - 1 < Cutoff(c, o) || (e.prev in c.byHash && c.byHash[e.prev] == h - 1))
  }

  lemma GrowHeld(c: Chain, h: Height, x: Hash, e: Entry)
    ensures forall k, y :: Held(Grow(c, h, x, e), k, y) <==> Held(c, k, y) || (k == h && y == x)
    ensures EntryAt(Grow(c, h, x, e), h, x) == e
    ensures forall k, y :: Held(c, k, y) && !(k == h && y == x) ==> EntryAt(Grow(c, h, x, e), k, y) == EntryAt(c, k, y)
  {
  }

  lemma GrowIndexed(c: Chain, o: Options, h: Height, x: Hash, e: Entry)
    requires Indexed(c, o) && Fresh(c, o, h, x)
    ensures Indexed(Grow(c, h, x, e), o)
  {
    GrowHeld(c, h, x, e);
  }

  lemma GrowLinked(c: Chain, o: Options, h: Height, x: Hash, e: Entry)
    requires Indexed(c, o) && Linked(c, o) && Fresh(c, o, h, x) && LinkedEntry(c, o, h, e) && (e.prev == x ==> x == ZERO_HASH)
    ensures Linked(Grow(c, h, x, e), o)
  {
    GrowHeld(c, h, x, e);
    var c' := Grow(c, h, x, e);
    assert Cutoff(c', o) == Cutoff(c, o);
    forall k: Height, y | Held(c', k, y) && EntryAt(c', k, y).prev != ZERO_HASH
      ensures k > 0 && (k - 1 < Cutoff(c', o) || Parent(c', k, y, EntryAt(c', k, y).prev))
    {
      if !(k == h && y == x) {
        assert k > 0 && (k - 1 < Cutoff(c, o) || Parent(c, k, y, EntryAt(c, k, y).prev));
      }
    }
  }

  /** Recording a header not yet known leaves the canonical map closed: no
      canonical header can have been waiting for it. */
  lemma GrowClosed(c: Chain, o: Options, h: Height, x: Hash, e: Entry)
    requires Linked(c, o) && Named(c) && Closed(c, Cutoff(c, o)) && x !in c.byHash
    ensures Closed(Grow(c, h, x, e), Cutoff(c, o))
  {
    GrowHeld(c, h, x, e);
    var c' := Grow(c, h, x, e);
    forall k | k in c'.canon ensures ClosedAt(c', Cutoff(c, o), k) {
      var y := c.canon[k];
      assert ClosedAt(c, Cutoff(c, o), k);
      if Held(c, k, y) && EntryAt(c, k, y).prev != ZERO_HASH {
        assert k > 0 && (k - 1 < Cutoff(c, o) || Parent(c, k, y, EntryAt(c, k, y).prev));
      }
    }
  }

  lemma ReanchorBase(c: Chain, o: Options, p: Hash, h: Height, root: Hash)
    requires Base(c, o) && TipOk(c, o)
    ensures var c' := Reanchor(c, p, h, root);
            Base(c', o) && TipOk(c', o) && p in c'.byHash && (Closed(c, Cutoff(c, o)) ==> Closed(c', Cutoff(c', o)))
  {
    if p !in c.byHash {
      var e := Entry(root, ZERO_HASH, true);
      GrowHeld(c, h, p, e);
      GrowIndexed(c, o, h, p, e);
      GrowLinked(c, o, h, p, e);
      if Closed(c, Cutoff(c, o)) {
        GrowClosed(c, o, h, p, e);
      }
    }
  }

  lemma ReanchorKeeps(c: Chain, o: Options, p: Hash, h: Height, root: Hash)
    requires Unbounded(c, o)
    ensures Unbounded(Reanchor(c, p, h, root), o)
    ensures p in Reanchor(c, p, h, root).byHash
  {
    ReanchorBase(c, o, p, h, root);
  }

  lemma {:induction false} RecanonFrame(c: Chain, x: Hash, h: Height)
    ensures Recanon(c, x, h) == c.(canon := Recanon(c, x, h).canon)
    ensures h in Recanon(c, x, h).canon && Recanon(c, x, h).canon[h] == x
    ensures forall k :: k > h ==> (k in Recanon(c, x, h).canon <==> k in c.canon)
    ensures forall k :: k > h && k in c.canon ==> Recanon(c, x, h).canon[k] == c.canon[k]
    decreases h
  {
    if !(h in c.canon && c.canon[h] == x) && Held(c, h, x) && Parent(c, h, x, EntryAt(c, h, x).prev) {
      RecanonFrame(c.(canon := c.canon[h := x]), EntryAt(c, h, x).prev, h - 1);
    }
  }

  /** The early stop is sound: below the walk nothing stale is left. */
  lemma {:induction false} RecanonCloses(c: Chain, floor: Height, x: Hash, h: Height)
    requires forall k :: k in c.canon && k <= h ==> ClosedAt(c, floor, k)
    ensures forall k :: k in Recanon(c, x, h).canon && k <= h ==> ClosedAt(Recanon(c, x, h), floor, k)
    decreases h
  {
    var c' := c.(canon := c.canon[h := x]);
    var r := Recanon(c, x, h);
    if h in c.canon && c.canon[h] == x {
    } else if Held(c, h, x) && Parent(c, h, x, EntryAt(c, h, x).prev) {
      var p := EntryAt(c, h, x).prev;
      forall k | k in c'.canon && k <= h - 1 ensures ClosedAt(c', floor, k) {
        assert ClosedAt(c, floor, k);
      }
      RecanonCloses(c', floor, p, h - 1);
      RecanonFrame(c', p, h - 1);
      assert ClosedAt(r, floor, h);
    } else {
      forall k | k in r.canon && k <= h ensures ClosedAt(r, floor, k) {
        if k < h { assert ClosedAt(c, floor, k); }
      }
    }
  }

  lemma {:induction false} RecanonNamed(c: Chain, x: Hash, h: Height)
    requires Named(c) && x in c.byHash && c.byHash[x] == h && h <= c.tipH
    ensures Named(Recanon(c, x, h))
    decreases h
  {
    if !(h in c.canon && c.canon[h] == x) && Held(c, h, x) && Parent(c, h, x, EntryAt(c, h, x).prev) {
      RecanonNamed(c.(canon := c.canon[h := x]), EntryAt(c, h, x).prev, h - 1);
    }
  }

  lemma PruneHeld(c: Chain, o: Options)
    requires Indexed(c, o)
    ensures forall h: Height, x :: Held(Prune(c, o), h, x) <==> Held(c, h, x) && h >= Cutoff(c, o)
    ensures forall h, x :: Held(Prune(c, o), h, x) ==> EntryAt(Prune(c, o), h, x) == EntryAt(c, h, x)
    ensures forall x :: x in Prune(c, o).byHash <==>
                          x in c.byHash && (x == o.anchorHash || c.byHash[x] >= Cutoff(c, o))
    ensures forall x :: x in Prune(c, o).byHash ==> Prune(c, o).byHash[x] == c.byHash[x]
  {
    var cut := Cutoff(c, o);
    forall x | x in c.byHash
      ensures DroppedIn(c.at, c.lowest, cut, x) <==> x != o.anchorHash && c.byHash[x] < cut
    {
      if x != o.anchorHash && c.byHash[x] < cut {
        assert Held(c, c.byHash[x], x);
      }
      if DroppedIn(c.at, c.lowest, cut, x) {
        var h: Height :| c.lowest <= h < cut && h in c.at && x in c.at[h];
        assert Held(c, h, x);
      }
    }
  }

  lemma PruneIndexed(c: Chain, o: Options)
    requires Indexed(c, o) && Linked(c, o)
    ensures Indexed(Prune(c, o), o) && Linked(Prune(c, o), o)
  {
    PruneHeld(c, o);
    var c' := Prune(c, o);
    forall h: Height, x | Held(c', h, x) && EntryAt(c', h, x).prev != ZERO_HASH
      ensures h > 0 && (h - 1 < Cutoff(c', o) || Parent(c', h, x, EntryAt(c', h, x).prev))
    {
      assert h > 0 && (h - 1 < Cutoff(c, o) || Parent(c, h, x, EntryAt(c, h, x).prev));
    }
  }

  lemma PruneCanon(c: Chain, o: Options)
    requires Indexed(c, o) && Named(c)
    ensures Named(Prune(c, o))
    ensures Closed(c, Cutoff(c, o)) ==> Closed(Prune(c, o), Cutoff(c, o))
  {
    PruneHeld(c, o);
    var cut, c' := Cutoff(c, o), Prune(c, o);
    forall h | h in c'.canon
      ensures c'.canon[h] in c'.byHash && (ClosedAt(c, cut, h) ==> ClosedAt(c', cut, h))
    {
      assert h in c.canon && c'.canon[h] == c.canon[h];
      assert c.canon[h] != o.anchorHash ==> Held(c, h, c.canon[h]);
    }
  }

  /** A header that may be attached: new or already held where it will go, not
      its own parent, its parent's height known, or below the window by now. */
  ghost predicate Attachable(c: Chain, o: Options, x: Hash, prev: Hash, parentH: Height)
  {
    && parentH != MAX_HEIGHT
    && Fresh(c, o, Next(parentH), x) && x != prev
    && (if prev in c.byHash then c.byHash[prev] == parentH else parentH < Cutoff(c, o))
  }

  lemma InsertKeeps(c: Chain, o: Options, x: Hash, prev: Hash, root: Hash, parentH: Height)
    requires Base(c, o) && TipOk(c, o) && Attachable(c, o, x, prev, parentH)
    ensures var c' := Insert(c, x, prev, root, parentH);
            Base(c', o) && TipOk(c', o) && (x !in c.byHash && Closed(c, Cutoff(c, o)) ==> Closed(c', Cutoff(c', o)))
  {
    var e := Entry(root, prev, false);
    GrowHeld(c, Next(parentH), x, e);
    GrowIndexed(c, o, Next(parentH), x, e);
    GrowLinked(c, o, Next(parentH), x, e);
    if x !in c.byHash && Closed(c, Cutoff(c, o)) {
      GrowClosed(c, o, Next(parentH), x, e);
    }
  }

  /** A higher tip only raises the floor. */
  lemma RaiseTipKeeps(c: Chain, o: Options, x: Hash, h: Height)
    requires Base(c, o) && h >= c.tipH
    ensures var c' := c.(tip := x, tipH := h);
            Base(c', o) && Cutoff(c, o) <= Cutoff(c', o) && (Closed(c, Cutoff(c, o)) ==> Closed(c', Cutoff(c', o)))
  {
    var c' := c.(tip := x, tipH := h);
    assert forall k, y :: Held(c', k, y) <==> Held(c, k, y);
    forall k: Height, y | Held(c', k, y) && EntryAt(c', k, y).prev != ZERO_HASH
      ensures k > 0 && (k - 1 < Cutoff(c', o) || Parent(c', k, y, EntryAt(c', k, y).prev))
    {
      assert k > 0 && (k - 1 < Cutoff(c, o) || Parent(c, k, y, EntryAt(c, k, y).prev));
    }
    forall k | k in c'.canon && ClosedAt(c, Cutoff(c, o), k) ensures ClosedAt(c', Cutoff(c', o), k) {
    }
  }

  /** Recanon touches only canon. */
  lemma RecanonKeeps(c: Chain, o: Options, x: Hash, h: Height)
    requires Base(c, o)
    requires x in c.byHash && c.byHash[x] == h && h == c.tipH
    ensures var c' := Recanon(c, x, h);
            Base(c', o) && (Closed(c, Cutoff(c, o)) ==> Closed(c', Cutoff(c', o)))
  {
    RecanonFrame(c, x, h);
    RecanonNamed(c, x, h);
    if Closed(c, Cutoff(c, o)) {
      RecanonCloses(c, Cutoff(c, o), x, h);
    }
    var c' := Recanon(c, x, h);
    assert forall k, y :: Held(c', k, y) <==> Held(c, k, y);
    assert forall k, y, p :: Parent(c', k, y, p) <==> Parent(c, k, y, p);
  }

  /** The tip move of Attach, after the header has been inserted as c1. */
  lemma MoveTipKeeps(c1: Chain, o: Options, x: Hash, h: Height)
    requires Base(c1, o) && h > c1.tipH
    requires Held(c1, h, x) && !EntryAt(c1, h, x).viaAnchor
    ensures var c' := Prune(Recanon(c1.(tip := x, tipH := h), x, h), o);
            && Base(c', o) && TipOk(c', o)
            && (Closed(c1, Cutoff(c1, o)) ==> Closed(c', Cutoff(c', o)))
            && (forall k: Height, y :: Held(c', k, y) ==> Cutoff(c', o) <= k)
            && Cutoff(c1, o) <= Cutoff(c', o)
            && (forall y :: y in c1.byHash ==> y in c'.byHash || (c1.byHash[y] < Cutoff(c', o) && o.window != 0))
  {
    var c2 := c1.(tip := x, tipH := h);
    RaiseTipKeeps(c1, o, x, h);
    RecanonKeeps(c2, o, x, h);
    RecanonFrame(c2, x, h);
    var c3 := Recanon(c2, x, h);
    PruneIndexed(c3, o);
    PruneCanon(c3, o);
    PruneHeld(c3, o);
    assert Held(c3, h, x) && !EntryAt(c3, h, x).viaAnchor;
  }

  /** Attaching keeps the invariant, and a tip it moves strictly rises. A header
      not known before also leaves the canonical map closed. */
  lemma AttachBase(c: Chain, o: Options, x: Hash, prev: Hash, root: Hash, parentH: Height)
    requires Base(c, o) && TipOk(c, o) && Attachable(c, o, x, prev, parentH)
    ensures var c' := Attach(c, o, x, prev, root, parentH);
            && Base(c', o) && TipOk(c', o)
            && (x !in c.byHash && Closed(c, Cutoff(c, o)) ==> Closed(c', Cutoff(c', o)))
            && if MovesTip(c, prev, parentH)
               then c'.tip == x && c'.tipH == parentH + 1 > c.tipH &&
                    (forall k: Height, y :: Held(c', k, y) ==> Cutoff(c', o) <= k)
               else c'.tip == c.tip && c'.tipH == c.tipH >= parentH + 1
  {
    InsertKeeps(c, o, x, prev, root, parentH);
    if MovesTip(c, prev, parentH) {
      GrowHeld(c, Next(parentH), x, Entry(root, prev, false));
      MoveTipKeeps(Insert(c, x, prev, root, parentH), o, x, Next(parentH));
      RecanonFrame(Insert(c, x, prev, root, parentH).(tip := x, tipH := Next(parentH)), x, Next(parentH));
    }
  }

  lemma AttachKnown(c: Chain, o: Options, x: Hash, prev: Hash, root: Hash, parentH: Height)
    ensures var c' := Attach(c, o, x, prev, root, parentH);
            forall y :: y in c'.byHash ==>
                          if y == x then c'.byHash[y] == Next(parentH)
                          else y in c.byHash && c'.byHash[y] == c.byHash[y]
  {
    RecanonFrame(Insert(c, x, prev, root, parentH).(tip := x, tipH := Next(parentH)), x, Next(parentH));
  }

  lemma AttachEntries(c: Chain, o: Options, x: Hash, prev: Hash, root: Hash, parentH: Height)
    ensures var c' := Attach(c, o, x, prev, root, parentH);
            forall h, y :: Held(c', h, y) ==>
                             if h == Next(parentH) && y == x then EntryAt(c', h, y) == Entry(root, prev, false)
                             else Held(c, h, y) && EntryAt(c', h, y) == EntryAt(c, h, y)
  {
    var c1 := Insert(c, x, prev, root, parentH);
    GrowHeld(c, Next(parentH), x, Entry(root, prev, false));
    RecanonFrame(c1.(tip := x, tipH := Next(parentH)), x, Next(parentH));
    var c' := Attach(c, o, x, prev, root, parentH);
    assert forall h, y :: Held(c', h, y) ==> Held(c1, h, y) && EntryAt(c', h, y) == EntryAt(c1, h, y);
  }

  /** When Observe keeps the invariant: unless the header it attaches names
      itself as its parent, or its parent sits at the last uint32 height. */
  predicate Sound(c: Chain, x: Hash, prev: Hash, answer: Answer)
  {
    Attaches(c, x, prev, answer) ==> x != prev && ParentHeight(c, prev, answer) != MAX_HEIGHT
  }

  /** The bound on heights returns once the parent's child is attached. */
  lemma AttachValid(c: Chain, o: Options, x: Hash, prev: Hash, root: Hash, parentH: Height)
    requires Unbounded(c, o) && Attachable(c, o, x, prev, parentH) && x !in c.byHash
    requires forall y :: y in c.byHash && y != prev ==> c.byHash[y] <= c.tipH
    requires prev in c.byHash
    ensures Valid(Attach(c, o, x, prev, root, parentH), o)
  {
    AttachBase(c, o, x, prev, root, parentH);
    AttachKnown(c, o, x, prev, root, parentH);
  }

  lemma ReanchoredAttachable(c: Chain, o: Options, x: Hash, prev: Hash, answer: Answer)
    requires Valid(c, o) && Sound(c, x, prev, answer) && Attaches(c, x, prev, answer) && prev !in c.byHash
    ensures var c1 := Reanchor(c, prev, answer.value.0, answer.value.1);
            && Unbounded(c1, o) && Attachable(c1, o, x, prev, answer.value.0) && x !in c1.byHash && prev in c1.byHash
            && (forall y :: y in c1.byHash && y != prev ==> c1.byHash[y] <= c1.tipH)
  {
    ReanchorKeeps(c, o, prev, answer.value.0, answer.value.1);
  }

  lemma ObserveKeeps(c: Chain, o: Options, x: Hash, prev: Hash, root: Hash, answer: Answer)
    requires Valid(c, o) && Sound(c, x, prev, answer)
    ensures Valid(Observe(c, o, x, prev, root, answer), o)
    ensures var c' := Observe(c, o, x, prev, root, answer);
            (c'.tip == c.tip && c'.tipH == c.tipH) || (c'.tip == x && c'.tipH > c.tipH)
  {
    if x in c.byHash {
      RedeliverValid(c, o, x);
    } else if Attaches(c, x, prev, answer) {
      var h := ParentHeight(c, prev, answer);
      var c1 := if prev in c.byHash then c else Reanchor(c, prev, h, answer.value.1);
      if prev !in c.byHash {
        ReanchoredAttachable(c, o, x, prev, answer);
      }
      AttachValid(c1, o, x, prev, root, h);
      AttachBase(c1, o, x, prev, root, h);
    }
  }

  /** A child of a header at the last height wraps to height 0. */
  lemma WrapBreaks(c: Chain, o: Options, x: Hash, prev: Hash, root: Hash)
    requires TipOk(c, o) && x !in c.byHash && prev in c.byHash && c.byHash[prev] == MAX_HEIGHT && prev != ZERO_HASH
    ensures !Valid(Attach(c, o, x, prev, root, MAX_HEIGHT), o)
  {
    var c1 := Insert(c, x, prev, root, MAX_HEIGHT);
    var c' := Attach(c, o, x, prev, root, MAX_HEIGHT);
    if MovesTip(c, prev, MAX_HEIGHT) {
      RecanonFrame(c1.(tip := x, tipH := 0), x, 0);
      assert !DroppedIn(c1.at, c1.lowest, 0, prev);
      assert prev in c'.byHash && c'.byHash[prev] > c'.tipH;
      assert !Bounded(c');
    } else {
      assert Held(c', 0, x) && EntryAt(c', 0, x).prev == prev;
      assert !Linked(c', o);
    }
  }

  /** A header that is its own parent ends up held at two heights. */
  lemma SelfParentBreaks(c: Chain, o: Options, x: Hash, root: Hash, h: Height)
    requires Held(c, h, x) && h != MAX_HEIGHT
    ensures !Valid(Attach(c, o, x, x, root, h), o)
  {
    var c1 := Insert(c, x, x, root, h);
    var c2 := c1.(tip := x, tipH := h + 1);
    var c' := Attach(c, o, x, x, root, h);
    assert Held(c1, h, x) && c1.byHash[x] == h + 1;
    RecanonFrame(c2, x, h + 1);
    if MovesTip(c, x, h) {
      assert Cutoff(c2, o) <= h;
    }
    assert Held(c', h, x) && (x in c'.byHash ==> c'.byHash[x] == h + 1);
    assert !Indexed(c', o);
  }

  /** With a recorded parent, Observe keeps the invariant exactly when Sound. */
  lemma ObserveKeepsIff(c: Chain, o: Options, x: Hash, prev: Hash, root: Hash, answer: Answer)
    requires Valid(c, o) && prev != ZERO_HASH
    ensures Valid(Observe(c, o, x, prev, root, answer), o) <==> Sound(c, x, prev, answer)
  {
    if Sound(c, x, prev, answer) {
      ObserveKeeps(c, o, x, prev, root, answer);
    } else {
      var h := ParentHeight(c, prev, answer);
      var c1 := if prev in c.byHash then c else Reanchor(c, prev, h, answer.value.1);
      if prev !in c.byHash {
        ReanchorKeeps(c, o, prev, h, answer.value.1);
        GrowHeld(c, h, prev, Entry(answer.value.1, ZERO_HASH, true));
      }
      if h != MAX_HEIGHT {
        assert Held(c1, h, x);
        SelfParentBreaks(c1, o, x, root, h);
      } else if x != prev {
        WrapBreaks(c1, o, x, prev, root);
      } else {
        assert c1.tip == c.tip != prev;
        assert Held(Attach(c1, o, x, prev, root, h), 0, x);
      }
    }
  }
}
