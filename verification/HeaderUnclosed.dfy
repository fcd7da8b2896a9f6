/**
  A run of the interleaved header store after which its canonical map is not closed
  (headers/chain.go, the three sections of Observe).
*/
module HeaderUnclosed {
  import opened Bytes
  import opened HeaderChain
  import opened HeaderChainProofs
  import opened HeaderRace

  lemma PruneOff(c: Chain, o: Options)
    requires o.window == 0
    ensures Prune(c, o) == c
  {
    assert KeepHashes(c.byHash, c.at, c.lowest, 0) == c.byHash;
    assert KeepHeights(c.at, c.lowest, 0) == c.at;
    assert KeepHeights(c.canon, c.lowest, 0) == c.canon;
  }

  /** The walk back from Y stops at its re-anchored parent X, which records none. */
  lemma RecanonTwo(c: Chain, x: Hash, y: Hash, h: Height)
    requires h < MAX_HEIGHT && h !in c.canon && h + 1 !in c.canon
    requires Parent(c, h + 1, y, x) && Held(c, h, x) && EntryAt(c, h, x).prev == ZERO_HASH
    ensures Recanon(c, y, h + 1) == c.(canon := c.canon[h := x][h + 1 := y])
  {
    var c' := c.(canon := c.canon[h + 1 := y]);
    assert Recanon(c', x, h) == c'.(canon := c'.canon[h := x]);
    assert c.canon[h + 1 := y][h := x] == c.canon[h := x][h + 1 := y];
  }

  /** Y on X: X is re-anchored at h, Y becomes the tip at h + 1. */
  lemma TipOnReanchored(c: Chain, o: Options, x: Hash, y: Hash, rootX: Hash, rootY: Hash, h: Height)
    requires o.window == 0 && h < MAX_HEIGHT && c.tipH < h && h !in c.canon && h + 1 !in c.canon
    requires x !in c.byHash && y !in c.byHash && x != y && x != ZERO_HASH
    ensures var c' := Attach(Reanchor(c, x, h, rootX), o, y, x, rootY, h);
            && c'.byHash == c.byHash[x := h][y := h + 1]
            && c'.canon == c.canon[h := x][h + 1 := y]
            && c'.tip == y && c'.tipH == h + 1
  {
    var c1 := Reanchor(c, x, h, rootX);
    GrowHeld(c, h, x, Entry(rootX, ZERO_HASH, true));
    GrowHeld(c1, h + 1, y, Entry(rootY, x, false));
    var i := Insert(c1, y, x, rootY, h).(tip := y, tipH := h + 1);
    RecanonTwo(i, x, y, h);
    PruneOff(Recanon(i, y, h + 1), o);
  }

  /** X is canonical at h + 1 with recorded parent P, yet Z is canonical at h. */
  predicate Unclosed(c: Chain, h: Height, x: Hash, p: Hash, z: Hash)
  {
    && h < MAX_HEIGHT
    && h in c.canon && c.canon[h] == z && z != p
    && h + 1 in c.canon && c.canon[h + 1] == x && Parent(c, h + 1, x, p)
  }

  lemma LateSection(c: Chain, o: Options, x: Hash, p: Hash, z: Hash, root: Hash, h: Height)
    requires h < MAX_HEIGHT && h + 1 <= c.tipH && p != c.tip && p != ZERO_HASH && z != p && x != p
    requires p in c.byHash && c.byHash[p] == h
    requires h in c.canon && c.canon[h] == z && h + 1 in c.canon && c.canon[h + 1] == x
    ensures Unclosed(Attach(c, o, x, p, root, h), h, x, p, z)
    ensures Attach(c, o, x, p, root, h).tip == c.tip && Attach(c, o, x, p, root, h).tipH == c.tipH
  {
  }

  lemma UnclosedNotClosed(c: Chain, o: Options, h: Height, x: Hash, p: Hash, z: Hash)
    requires Unclosed(c, h, x, p, z) && o.window == 0
    ensures !Closed(c, Cutoff(c, o))
  {
    assert !ClosedAt(c, Cutoff(c, o), h + 1);
  }

  /** Z is the tip at h, and P competes with it there. */
  ghost predicate Contested(c: Chain, o: Options, p: Hash)
  {
    && Valid(c, o) && o.window == 0 && c.tipH + 2 < MAX_HEIGHT && c.tip != o.anchorHash
    && p in c.byHash && c.byHash[p] == c.tipH && p != c.tip && p != ZERO_HASH
  }

  /** What Y's delivery does between X's first and third sections. */
  ghost function Between(c: Chain, o: Options, x: Hash, y: Hash, rootX: Hash, rootY: Hash): Chain
    requires c.tipH + 2 < MAX_HEIGHT
  {
    Attach(Reanchor(c, x, c.tipH + 1, rootX), o, y, x, rootY, c.tipH + 1)
  }

  lemma BetweenState(c: Chain, o: Options, p: Hash, x: Hash, y: Hash, rootX: Hash, rootY: Hash)
    requires Contested(c, o, p) && x !in c.byHash && y !in c.byHash && x != y && x != ZERO_HASH
    ensures var h, c' := c.tipH, Between(c, o, x, y, rootX, rootY);
            && c'.tip == y && c'.tipH == h + 2 && p in c'.byHash && c'.byHash[p] == h
            && h in c'.canon && c'.canon[h] == c.tip && h + 1 in c'.canon && c'.canon[h + 1] == x
  {
    hide Attach, Reanchor;
    TipOnReanchored(c, o, x, y, rootX, rootY, c.tipH + 1);
  }

  /** X extends P, and between X's first and third sections Y on X re-anchors X and
      becomes the tip. X's own third section then records P as X's parent and moves
      nothing: Z stays canonical although the tip's ancestor at h is P. */
  lemma LateUncloses(c: Chain, o: Options, p: Hash, x: Hash, y: Hash, rootX: Hash, rootY: Hash, root: Hash)
    requires Contested(c, o, p) && x !in c.byHash && y !in c.byHash && x != y && x != ZERO_HASH
    ensures var c' := Attach(Between(c, o, x, y, rootX, rootY), o, x, p, root, c.tipH);
            c'.tip == y && c'.tipH == c.tipH + 2 && Unclosed(c', c.tipH, x, p, c.tip)
  {
    hide Attach;
    BetweenState(c, o, p, x, y, rootX, rootY);
    LateSection(Between(c, o, x, y, rootX, rootY), o, x, p, c.tip, root, c.tipH);
  }

  // ------------------------------------------------------------------ as a run

  /** The run is enabled and ends in w'. */
  ghost predicate Leads(w: World, o: Options, t: Truth, run: seq<Action>, w': World)
  {
    EnabledRun(w, o, t, run) && Run(w, o, t, run) == w'
  }

  lemma Ends(w: World, o: Options, t: Truth)
    ensures Leads(w, o, t, [], w)
  {
  }

  lemma Then(w: World, o: Options, t: Truth, a: Action, rest: seq<Action>, w': World)
    requires Enabled(w, t, a) && Leads(Apply(w, o, t, a), o, t, rest, w')
    ensures Leads(w, o, t, [a] + rest, w')
  {
    assert ([a] + rest)[1..] == rest;
  }

  lemma {:induction false} Joined(w: World, o: Options, t: Truth, a: seq<Action>, w': World, b: seq<Action>, w'': World)
    requires Leads(w, o, t, a, w') && Leads(w', o, t, b, w'')
    ensures Leads(w, o, t, a + b, w'')
    decreases a
  {
    hide Apply, Enabled;
    if a == [] {
      assert a + b == b;
    } else {
      Joined(Apply(w, o, t, a[0]), o, t, a[1..], w', b, w'');
      assert (a + b)[1..] == a[1..] + b;
    }
  }

  /** One delivery whose parent is known, run to its end with no tip to learn. */
  lemma CompetitorRun(w: World, o: Options, t: Truth, hdr: Header) returns (w': World)
    requires w.threads == map[] && Honest(t, hdr) && PassesWork(o, hdr) && hdr.hash !in w.chain.byHash && hdr.prev in w.chain.byHash
    requires !MovesTip(w.chain, hdr.prev, w.chain.byHash[hdr.prev])
    ensures Leads(w, o, t, [Arrive(1, hdr)] + ([Attaching(1)] + []), w') && w'.threads == map[]
    ensures w'.chain == Attach(w.chain, o, hdr.hash, hdr.prev, hdr.root, w.chain.byHash[hdr.prev])
  {
    hide PassesWork, Leads;
    var w1 := Apply(w, o, t, Arrive(1, hdr));
    w' := Apply(w1, o, t, Attaching(1));
    Ends(w', o, t);
    Then(w1, o, t, Attaching(1), [], w');
    Then(w, o, t, Arrive(1, hdr), [Attaching(1)] + [], w');
    assert w'.threads == map[];
  }

  /** One delivery that becomes the tip, and is learnt. */
  lemma TipRun(w: World, o: Options, t: Truth, hdr: Header) returns (w': World)
    requires w.threads == map[] && Honest(t, hdr) && PassesWork(o, hdr) && hdr.hash !in w.chain.byHash && hdr.prev in w.chain.byHash
    requires MovesTip(w.chain, hdr.prev, w.chain.byHash[hdr.prev])
    ensures Leads(w, o, t, [Arrive(0, hdr)] + ([Attaching(0)] + ([Learn(0)] + [])), w') && w'.threads == map[]
    ensures w'.chain == Attach(w.chain, o, hdr.hash, hdr.prev, hdr.root, w.chain.byHash[hdr.prev])
  {
    hide PassesWork, Leads;
    var w1 := Apply(w, o, t, Arrive(0, hdr));
    var w2 := Apply(w1, o, t, Attaching(0));
    w' := Apply(w2, o, t, Learn(0));
    Ends(w', o, t);
    Then(w2, o, t, Learn(0), [], w');
    Then(w1, o, t, Attaching(0), [Learn(0)] + [], w');
    Then(w, o, t, Arrive(0, hdr), [Attaching(0)] + ([Learn(0)] + []), w');
    assert w'.threads == map[];
  }

  /** The first child of the startup anchor becomes the tip. */
  lemma FirstChild(o: Options, z: Hash, root: Hash)
    requires o.anchorHeight != MAX_HEIGHT && z != o.anchorHash
    ensures var c := Attach(Init(o), o, z, o.anchorHash, root, o.anchorHeight);
            && Valid(c, o) && c.tip == z && c.tipH == o.anchorHeight + 1
            && (forall y :: y in c.byHash ==> y == z || y == o.anchorHash)
  {
    InitValid(o);
    ObserveKeeps(Init(o), o, z, o.anchorHash, root, None);
    AttachBase(Init(o), o, z, o.anchorHash, root, o.anchorHeight);
    AttachKnown(Init(o), o, z, o.anchorHash, root, o.anchorHeight);
  }

  /** A second child of the anchor competes with the first. */
  lemma SecondChild(c: Chain, o: Options, p: Hash, root: Hash)
    requires Valid(c, o) && c.tipH == o.anchorHeight + 1 && c.tip != o.anchorHash && o.window == 0
    requires p !in c.byHash && p != ZERO_HASH && c.tipH + 2 < MAX_HEIGHT
    ensures var c' := Attach(c, o, p, o.anchorHash, root, o.anchorHeight);
            && Contested(c', o, p) && c'.tip == c.tip && c'.tipH == c.tipH
            && (forall y :: y in c'.byHash ==> y == p || y in c.byHash)
  {
    ObserveKeeps(c, o, p, o.anchorHash, root, None);
    AttachKnown(c, o, p, o.anchorHash, root, o.anchorHeight);
    assert !MovesTip(c, o.anchorHash, o.anchorHeight);
  }

  /** The interleaving: X's first section, Y's whole delivery, X's third section. */
  function Crossing(x: Header, y: Header, root: Hash): seq<Action>
  {
    [Arrive(1, x)] + ([Arrive(2, y)] + ([Resolve(2, root)] + ([Attaching(2)] + ([Attaching(1)] + []))))
  }

  /** From any quiet state in which the tip is contested. */
  lemma CrossingUncloses(w: World, o: Options, t: Truth, x: Header, y: Header, root: Hash) returns (w': World)
    requires w.threads == map[] && Contested(w.chain, o, x.prev) && t(x.prev) == w.chain.tipH
    requires Honest(t, x) && Honest(t, y) && PassesWork(o, x) && PassesWork(o, y) && y.prev == x.hash
    requires x.hash !in w.chain.byHash && y.hash !in w.chain.byHash && x.hash != y.hash && x.hash != ZERO_HASH
    ensures Leads(w, o, t, Crossing(x, y, root), w') && !Closed(w'.chain, Cutoff(w'.chain, o))
  {
    hide PassesWork, Leads, Contested, Attach, Closed, Unclosed;
    var c := w.chain;
    ContestedFacts(c, o, x.prev);
    LateUncloses(c, o, x.prev, x.hash, y.hash, root, y.root, x.root);
    var w1 := Apply(w, o, t, Arrive(1, x));
    var w2 := Apply(w1, o, t, Arrive(2, y));
    var w3 := Apply(w2, o, t, Resolve(2, root));
    var w4 := Apply(w3, o, t, Attaching(2));
    w' := Apply(w4, o, t, Attaching(1));
    Ends(w', o, t);
    Then(w4, o, t, Attaching(1), [], w');
    Then(w3, o, t, Attaching(2), [Attaching(1)] + [], w');
    Then(w2, o, t, Resolve(2, root), [Attaching(2)] + ([Attaching(1)] + []), w');
    Then(w1, o, t, Arrive(2, y), [Resolve(2, root)] + ([Attaching(2)] + ([Attaching(1)] + [])), w');
    Then(w, o, t, Arrive(1, x), [Arrive(2, y)] + ([Resolve(2, root)] + ([Attaching(2)] + ([Attaching(1)] + []))), w');
    UnclosedNotClosed(w'.chain, o, c.tipH, x.hash, x.prev, c.tip);
  }

  lemma ContestedFacts(c: Chain, o: Options, p: Hash)
    requires Contested(c, o, p)
    ensures o.window == 0 && c.tipH + 2 < MAX_HEIGHT && p in c.byHash && c.byHash[p] == c.tipH && p != c.tip
  {
  }

  /** Closure is lost on a run from the start, with an honest Lookup: Z and then P extend
      the anchor, X extends P, Y extends X, and Y's delivery falls between X's first and
      third sections. */
  lemma InterleavingUncloses(o: Options, t: Truth, z: Header, p: Header, x: Header, y: Header, root: Hash)
    requires o.window == 0 && o.anchorHeight + 3 < MAX_HEIGHT && t(o.anchorHash) == o.anchorHeight
    requires Honest(t, z) && Honest(t, p) && Honest(t, x) && Honest(t, y)
    requires PassesWork(o, z) && PassesWork(o, p) && PassesWork(o, x) && PassesWork(o, y)
    requires z.prev == p.prev == o.anchorHash && x.prev == p.hash && y.prev == x.hash
    requires z.hash != p.hash && p.hash != ZERO_HASH && x.hash != ZERO_HASH
    ensures var run := [Arrive(0, z), Attaching(0), Learn(0), Arrive(1, p), Attaching(1),
                        Arrive(1, x), Arrive(2, y), Resolve(2, root), Attaching(2), Attaching(1)];
            && EnabledRun(Begin(o), o, t, run)
            && var c := Run(Begin(o), o, t, run).chain;
               !Closed(c, Cutoff(c, o))
  {
    hide PassesWork, Leads, Attach, Contested, Closed, EnabledRun, Run;
    var w0 := Begin(o);
    FirstChild(o, z.hash, z.root);
    var w1 := TipRun(w0, o, t, z);
    SecondChild(w1.chain, o, p.hash, p.root);
    AnchorHeld(w1.chain, o);
    var w2 := CompetitorRun(w1, o, t, p);
    ContestedFacts(w2.chain, o, p.hash);
    var w3 := CrossingUncloses(w2, o, t, x, y, root);
    var a := [Arrive(0, z)] + ([Attaching(0)] + ([Learn(0)] + []));
    var b := [Arrive(1, p)] + ([Attaching(1)] + []);
    Joined(w0, o, t, a, w1, b, w2);
    Joined(w0, o, t, a + b, w2, Crossing(x, y, root), w3);
    assert [Arrive(0, z), Attaching(0), Learn(0), Arrive(1, p), Attaching(1),
            Arrive(1, x), Arrive(2, y), Resolve(2, root), Attaching(2), Attaching(1)]
        == a + b + Crossing(x, y, root);
    LeadsRun(w0, o, t, a + b + Crossing(x, y, root), w3);
  }

  lemma AnchorHeld(c: Chain, o: Options)
    requires Valid(c, o)
    ensures o.anchorHash in c.byHash && c.byHash[o.anchorHash] == o.anchorHeight
  {
  }

  lemma LeadsRun(w: World, o: Options, t: Truth, run: seq<Action>, w': World)
    requires Leads(w, o, t, run, w')
    ensures EnabledRun(w, o, t, run) && Run(w, o, t, run) == w'
  {
  }
}
