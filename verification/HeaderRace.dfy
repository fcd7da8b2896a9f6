/**
  Observe as three atomic sections that interleave, with an honest Lookup and
  the tracker that learns each new tip (headers/chain.go, headers/tracker.go,
  cmd/overlay-bridge/main.go). Any number of deliveries run at once.
*/
module HeaderRace {
  import opened Bytes
  import opened HeaderChain
  import opened HeaderChainProofs
  import HeaderWork

  /** The fields of a delivered header. */
  datatype Header = Header(hash: Hash, prev: Hash, root: Hash, bits: nat)

  /** Where one delivery stands between two sections. */
  datatype Phase =
    | Looking(hdr: Header)                  // the parent was unknown: Lookup is out
    | Ready(hdr: Header, parentH: Height)   // the parent's height is known
    | Learning(height: Height)              // it became the tip: Learn is due

  datatype World = World(
    chain: Chain,
    threads: map<nat, Phase>,
    tracker: Height,
    moved: bool,              // some tip move has happened
    anchored: multiset<Hash>) // every re-anchoring so far

  datatype Action =
    | Arrive(id: nat, hdr: Header)
    | Resolve(id: nat, root: Hash)
    | Orphan(id: nat)
    | Attaching(id: nat)
    | Learn(id: nat)

  /** The true height of every block. */
  type Truth = Hash -> Height

  /** A header is one above its parent. */
  predicate Honest(t: Truth, hdr: Header)
  {
    t(hdr.hash) == t(hdr.prev) + 1
  }

  /** A header passes the work check. */
  predicate PassesWork(o: Options, hdr: Header)
  {
    HeaderWork.MeetsWork(hdr.hash, hdr.bits, o.minBits)
  }

  function Begin(o: Options): World
  {
    World(Init(o), map[], 0, false, multiset{})
  }

  predicate Enabled(w: World, t: Truth, a: Action)
  {
    match a
    case Arrive(id, hdr) => id !in w.threads && Honest(t, hdr)
    case Resolve(id, _) => id in w.threads && w.threads[id].Looking?
    case Orphan(id) => id in w.threads && w.threads[id].Looking?
    case Attaching(id) => id in w.threads && w.threads[id].Ready?
    case Learn(id) => id in w.threads && w.threads[id].Learning?
  }

  ghost function Apply(w: World, o: Options, t: Truth, a: Action): World
    requires Enabled(w, t, a)
  {
    var c := w.chain;
    match a
    case Arrive(id, hdr) =>
      if !PassesWork(o, hdr) then w
      else if hdr.hash in c.byHash then w.(chain := Redeliver(c, hdr.hash))
      else if hdr.prev in c.byHash then w.(threads := w.threads[id := Ready(hdr, c.byHash[hdr.prev])])
      else w.(threads := w.threads[id := Looking(hdr)])
    case Resolve(id, root) =>
      var hdr := w.threads[id].hdr;
      var c' := Reanchor(c, hdr.prev, t(hdr.prev), root);
      w.(chain := c',
         threads := w.threads[id := Ready(hdr, c'.byHash[hdr.prev])],
         anchored := if hdr.prev in c.byHash then w.anchored else w.anchored + multiset{hdr.prev})
    case Orphan(id) => w.(threads := w.threads - {id})
    case Attaching(id) =>
      var Ready(hdr, parentH) := w.threads[id];
      var c' := Attach(c, o, hdr.hash, hdr.prev, hdr.root, parentH);
      if MovesTip(c, hdr.prev, parentH)
      then w.(chain := c', threads := w.threads[id := Learning(Next(parentH))], moved := true)
      else w.(chain := c', threads := w.threads - {id})
    case Learn(id) =>
      var h := w.threads[id].height;
      w.(tracker := if h > w.tracker then h else w.tracker, threads := w.threads - {id})
  }

  ghost predicate EnabledRun(w: World, o: Options, t: Truth, run: seq<Action>)
    decreases run
  {
    run == [] || (Enabled(w, t, run[0]) && EnabledRun(Apply(w, o, t, run[0]), o, t, run[1..]))
  }

  ghost function Run(w: World, o: Options, t: Truth, run: seq<Action>): World
    requires EnabledRun(w, o, t, run)
    decreases run
  {
    if run == [] then w else Run(Apply(w, o, t, run[0]), o, t, run[1..])
  }

  // ----------------------------------------------------------------- invariant

  /** byHash never names a wrong height. */
  ghost predicate TrueHeights(c: Chain, t: Truth)
  {
    forall x :: x in c.byHash ==> c.byHash[x] == t(x)
  }

  ghost predicate ThreadOk(c: Chain, o: Options, t: Truth, p: Phase)
  {
    match p
    case Looking(hdr) => Honest(t, hdr) && hdr.hash != o.anchorHash
    case Ready(hdr, parentH) =>
      && Honest(t, hdr) && hdr.hash != o.anchorHash && parentH == t(hdr.prev)
      && (hdr.prev in c.byHash || parentH < Cutoff(c, o))
    case Learning(h) => h <= c.tipH
  }

  ghost predicate TrackerOk(w: World)
  {
    && w.tracker <= w.chain.tipH
    && (w.moved && w.tracker != w.chain.tipH ==>
          exists id :: id in w.threads && w.threads[id] == Learning(w.chain.tipH))
  }

  ghost predicate AnchoredOnce(w: World, o: Options)
  {
    o.window == 0 ==> forall p :: p in w.anchored ==> p in w.chain.byHash && w.anchored[p] == 1
  }

  ghost predicate RaceInv(w: World, o: Options, t: Truth)
  {
    && Base(w.chain, o) && TipOk(w.chain, o) && TrueHeights(w.chain, t)
    && (forall id :: id in w.threads ==> ThreadOk(w.chain, o, t, w.threads[id]))
    && TrackerOk(w)
    && AnchoredOnce(w, o)
  }

  lemma BeginOk(o: Options, t: Truth)
    requires t(o.anchorHash) == o.anchorHeight
    ensures RaceInv(Begin(o), o, t)
  {
    InitValid(o);
  }

  lemma RedeliverBase(c: Chain, o: Options, x: Hash)
    requires Base(c, o) && TipOk(c, o) && x in c.byHash
    ensures Base(Redeliver(c, x), o) && TipOk(Redeliver(c, x), o)
  {
    RedeliverFrame(c, x);
  }

  lemma MoveInserted(c: Chain, o: Options, x: Hash, prev: Hash, root: Hash, parentH: Height)
    requires Base(Insert(c, x, prev, root, parentH), o) && Next(parentH) > c.tipH
    ensures var c1 := Insert(c, x, prev, root, parentH);
            var c' := Prune(Recanon(c1.(tip := x, tipH := Next(parentH)), x, Next(parentH)), o);
            && Cutoff(c, o) <= Cutoff(c', o)
            && (forall y :: y in c1.byHash ==> y in c'.byHash || (c1.byHash[y] < Cutoff(c', o) && o.window != 0))
  {
    GrowHeld(c, Next(parentH), x, Entry(root, prev, false));
    MoveTipKeeps(Insert(c, x, prev, root, parentH), o, x, Next(parentH));
  }

  /** What every section leaves of byHash: nothing at or above the floor goes,
      and without a window nothing goes at all. */
  lemma AttachForgets(c: Chain, o: Options, x: Hash, prev: Hash, root: Hash, parentH: Height)
    requires Base(c, o) && TipOk(c, o) && Attachable(c, o, x, prev, parentH)
    ensures var c' := Attach(c, o, x, prev, root, parentH);
            && Cutoff(c, o) <= Cutoff(c', o)
            && (forall y :: y in c.byHash ==> y in c'.byHash || (c.byHash[y] < Cutoff(c', o) && o.window != 0))
  {
    var c1 := Insert(c, x, prev, root, parentH);
    assert forall y :: y in c.byHash ==> y in c1.byHash && c1.byHash[y] == c.byHash[y];
    if MovesTip(c, prev, parentH) {
      InsertKeeps(c, o, x, prev, root, parentH);
      MoveInserted(c, o, x, prev, root, parentH);
    }
  }

  lemma AnchorKnown(c: Chain, o: Options)
    requires Base(c, o)
    ensures o.anchorHash in c.byHash
  {
  }

  /** The tracker does not care for new threads. */
  lemma TrackerKept(w: World, w': World)
    requires TrackerOk(w) && w'.tracker == w.tracker && w'.moved == w.moved && w'.chain.tipH == w.chain.tipH
    requires forall id :: id in w.threads ==> id in w'.threads && w'.threads[id] == w.threads[id]
    ensures TrackerOk(w')
  {
    if w.moved && w.tracker != w.chain.tipH {
      var id :| id in w.threads && w.threads[id] == Learning(w.chain.tipH);
      assert id in w'.threads && w'.threads[id] == Learning(w'.chain.tipH);
    }
  }

  lemma ArriveKeeps(w: World, o: Options, t: Truth, a: Action)
    requires a.Arrive? && RaceInv(w, o, t) && Enabled(w, t, a)
    ensures RaceInv(Apply(w, o, t, a), o, t)
  {
    hide Base, TipOk, Redeliver, PassesWork, TrackerOk;
    var w' := Apply(w, o, t, a);
    AnchorKnown(w.chain, o);
    if PassesWork(o, a.hdr) && a.hdr.hash in w.chain.byHash {
      RedeliverBase(w.chain, o, a.hdr.hash);
      RedeliverFrame(w.chain, a.hdr.hash);
    }
    assert w'.chain.byHash == w.chain.byHash && w'.chain.tipH == w.chain.tipH;
    TrackerKept(w, w');
  }

  lemma AttachableNow(w: World, o: Options, t: Truth, id: nat)
    requires RaceInv(w, o, t) && id in w.threads && w.threads[id].Ready?
    ensures var Ready(hdr, parentH) := w.threads[id];
            Attachable(w.chain, o, hdr.hash, hdr.prev, parentH) && Next(parentH) == t(hdr.hash)
  {
    assert ThreadOk(w.chain, o, t, w.threads[id]);
  }

  /** What any section may do to the facts another delivery relies on. */
  ghost predicate Later(c: Chain, c': Chain, o: Options)
  {
    && c.tipH <= c'.tipH && Cutoff(c, o) <= Cutoff(c', o)
    && (forall y :: y in c.byHash ==> y in c'.byHash || (c.byHash[y] < Cutoff(c', o) && o.window != 0))
  }

  lemma LaterThreads(c: Chain, c': Chain, o: Options, t: Truth, threads: map<nat, Phase>)
    requires Later(c, c', o) && TrueHeights(c, t)
    requires forall id :: id in threads ==> ThreadOk(c, o, t, threads[id])
    ensures forall id :: id in threads ==> ThreadOk(c', o, t, threads[id])
  {
  }

  lemma ReanchorChain(c: Chain, o: Options, t: Truth, p: Hash, root: Hash)
    requires Base(c, o) && TipOk(c, o) && TrueHeights(c, t)
    ensures var c' := Reanchor(c, p, t(p), root);
            && Base(c', o) && TipOk(c', o) && TrueHeights(c', t) && Later(c, c', o)
            && p in c'.byHash && c'.tipH == c.tipH && (forall y :: y in c.byHash ==> y in c'.byHash)
  {
    ReanchorBase(c, o, p, t(p), root);
  }

  lemma ResolveKeeps(w: World, o: Options, t: Truth, a: Action)
    requires a.Resolve? && RaceInv(w, o, t) && Enabled(w, t, a)
    ensures RaceInv(Apply(w, o, t, a), o, t)
  {
    var w' := Apply(w, o, t, a);
    var hdr := w.threads[a.id].hdr;
    assert ThreadOk(w.chain, o, t, w.threads[a.id]);
    ReanchorChain(w.chain, o, t, hdr.prev, a.root);
    LaterThreads(w.chain, w'.chain, o, t, w.threads);
    if w.moved && w.tracker != w.chain.tipH {
      var id :| id in w.threads && w.threads[id] == Learning(w.chain.tipH);
      assert id in w'.threads && w'.threads[id] == Learning(w'.chain.tipH);
    }
  }

  lemma AttachingChain(w: World, o: Options, t: Truth, id: nat)
    requires RaceInv(w, o, t) && id in w.threads && w.threads[id].Ready?
    ensures var Ready(hdr, parentH) := w.threads[id];
            var c' := Attach(w.chain, o, hdr.hash, hdr.prev, hdr.root, parentH);
            && Base(c', o) && TipOk(c', o) && TrueHeights(c', t) && Later(w.chain, c', o)
            && if MovesTip(w.chain, hdr.prev, parentH) then c'.tipH == Next(parentH) else c'.tipH == w.chain.tipH
  {
    var Ready(hdr, parentH) := w.threads[id];
    AttachableNow(w, o, t, id);
    AttachBase(w.chain, o, hdr.hash, hdr.prev, hdr.root, parentH);
    AttachKnown(w.chain, o, hdr.hash, hdr.prev, hdr.root, parentH);
    AttachForgets(w.chain, o, hdr.hash, hdr.prev, hdr.root, parentH);
  }

  lemma AttachingKeeps(w: World, o: Options, t: Truth, a: Action)
    requires a.Attaching? && RaceInv(w, o, t) && Enabled(w, t, a)
    ensures RaceInv(Apply(w, o, t, a), o, t)
  {
    var w' := Apply(w, o, t, a);
    var Ready(hdr, parentH) := w.threads[a.id];
    AttachingChain(w, o, t, a.id);
    LaterThreads(w.chain, w'.chain, o, t, w.threads);
    if MovesTip(w.chain, hdr.prev, parentH) {
      assert a.id in w'.threads && w'.threads[a.id] == Learning(w'.chain.tipH);
    } else if w.moved && w.tracker != w.chain.tipH {
      var id :| id in w.threads && w.threads[id] == Learning(w.chain.tipH);
      assert id in w'.threads && w'.threads[id] == Learning(w'.chain.tipH);
    }
  }

  lemma LearnKeeps(w: World, o: Options, t: Truth, a: Action)
    requires (a.Learn? || a.Orphan?) && RaceInv(w, o, t) && Enabled(w, t, a)
    ensures RaceInv(Apply(w, o, t, a), o, t)
  {
    var w' := Apply(w, o, t, a);
    if a.Learn? {
      assert ThreadOk(w.chain, o, t, w.threads[a.id]);
    }
    if w.moved && w'.tracker != w.chain.tipH {
      var id :| id in w.threads && w.threads[id] == Learning(w.chain.tipH);
      assert id in w'.threads && w'.threads[id] == Learning(w'.chain.tipH);
    }
  }

  lemma ApplyKeeps(w: World, o: Options, t: Truth, a: Action)
    requires RaceInv(w, o, t) && Enabled(w, t, a)
    ensures RaceInv(Apply(w, o, t, a), o, t)
  {
    match a
    case Arrive(_, _) => ArriveKeeps(w, o, t, a);
    case Resolve(_, _) => ResolveKeeps(w, o, t, a);
    case Attaching(_) => AttachingKeeps(w, o, t, a);
    case Orphan(_) => LearnKeeps(w, o, t, a);
    case Learn(_) => LearnKeeps(w, o, t, a);
  }

  lemma {:induction false} RunKeeps(w: World, o: Options, t: Truth, run: seq<Action>)
    requires RaceInv(w, o, t) && EnabledRun(w, o, t, run)
    ensures RaceInv(Run(w, o, t, run), o, t)
    decreases run
  {
    if run == [] {
    } else {
      ApplyKeeps(w, o, t, run[0]);
      RunKeeps(Apply(w, o, t, run[0]), o, t, run[1..]);
    }
  }

  /** However deliveries interleave: heights are true, indexes agree, without a
      window each missing parent is re-anchored once, and the tracker follows. */
  lemma RaceSafety(o: Options, t: Truth, run: seq<Action>)
    requires t(o.anchorHash) == o.anchorHeight
    requires EnabledRun(Begin(o), o, t, run)
    ensures var w := Run(Begin(o), o, t, run);
            && (forall x :: x in w.chain.byHash ==> w.chain.byHash[x] == t(x))
            && (forall h, x :: Held(w.chain, h, x) <==> x in w.chain.byHash && x != o.anchorHash && h == t(x))
            && (o.window == 0 ==> forall p :: w.anchored[p] <= 1)
            && w.tracker <= w.chain.tipH
            && (w.moved && w.threads == map[] ==> w.tracker == w.chain.tipH)
  {
    BeginOk(o, t);
    RunKeeps(Begin(o), o, t, run);
  }

  /** One step: a tip that moves rises, and no held lane header is demoted. */
  lemma StepProgress(w: World, o: Options, t: Truth, a: Action)
    requires RaceInv(w, o, t) && Enabled(w, t, a)
    ensures var w' := Apply(w, o, t, a);
            && (w'.chain.tip != w.chain.tip ==> w'.chain.tipH > w.chain.tipH)
            && (w'.chain.tip == w.chain.tip ==> w'.chain.tipH == w.chain.tipH)
            && (forall h, x :: Held(w.chain, h, x) && !EntryAt(w.chain, h, x).viaAnchor && Held(w'.chain, h, x) ==>
                                 !EntryAt(w'.chain, h, x).viaAnchor)
  {
    var c := w.chain;
    match a
    case Arrive(_, _) =>
    case Resolve(id, root) =>
      var hdr := w.threads[id].hdr;
      GrowHeld(c, t(hdr.prev), hdr.prev, Entry(root, ZERO_HASH, true));
    case Attaching(id) =>
      var Ready(hdr, parentH) := w.threads[id];
      AttachableNow(w, o, t, id);
      AttachBase(c, o, hdr.hash, hdr.prev, hdr.root, parentH);
      AttachUndemoted(c, o, hdr.hash, hdr.prev, hdr.root, parentH);
    case Orphan(_) =>
    case Learn(_) =>
  }

  lemma AttachUndemoted(c: Chain, o: Options, x: Hash, prev: Hash, root: Hash, parentH: Height)
    ensures var c' := Attach(c, o, x, prev, root, parentH);
            forall h, y :: Held(c', h, y) && EntryAt(c', h, y).viaAnchor ==>
                             Held(c, h, y) && EntryAt(c, h, y).viaAnchor
  {
    var c1 := Insert(c, x, prev, root, parentH);
    GrowHeld(c, Next(parentH), x, Entry(root, prev, false));
    RecanonFrame(c1.(tip := x, tipH := Next(parentH)), x, Next(parentH));
    var c' := Attach(c, o, x, prev, root, parentH);
    assert forall h, y :: Held(c', h, y) ==> Held(c1, h, y) && EntryAt(c', h, y) == EntryAt(c1, h, y);
  }

  // ----------------------------------------------------- proof of work, interleaved

  /** x is the hash of an arrived header that passes the work check; an entry that records
      a parent is that header's own. */
  ghost predicate Proven(o: Options, arrived: set<Header>, x: Hash, e: Entry)
  {
    exists hdr :: hdr in arrived && HeaderWork.ProvesWork(hdr.hash, hdr.bits, o.minBits) && hdr.hash == x &&
                  (e.prev != ZERO_HASH ==> e.root == hdr.root && e.prev == hdr.prev)
  }

  ghost predicate LaneProven(c: Chain, o: Options, arrived: set<Header>)
  {
    && (forall h, x :: Held(c, h, x) && !EntryAt(c, h, x).viaAnchor ==> Proven(o, arrived, x, EntryAt(c, h, x)))
    && (forall h, x :: Held(c, h, x) && EntryAt(c, h, x).viaAnchor ==> EntryAt(c, h, x).prev == ZERO_HASH)
  }

  predicate Carries(o: Options, arrived: set<Header>, p: Phase)
  {
    p.Learning? || (p.hdr in arrived && PassesWork(o, p.hdr))
  }

  ghost predicate RaceProven(w: World, o: Options, arrived: set<Header>)
  {
    LaneProven(w.chain, o, arrived) && forall id :: id in w.threads ==> Carries(o, arrived, w.threads[id])
  }

  function Arrival(a: Action): set<Header>
  {
    if a.Arrive? then {a.hdr} else {}
  }

  function Arrivals(run: seq<Action>): set<Header>
  {
    if run == [] then {} else Arrival(run[0]) + Arrivals(run[1..])
  }

  lemma ProvenLater(c: Chain, o: Options, arrived: set<Header>, more: set<Header>)
    requires LaneProven(c, o, arrived)
    ensures LaneProven(c, o, arrived + more)
  {
    forall x, e | Proven(o, arrived, x, e)
      ensures Proven(o, arrived + more, x, e)
    {
    }
  }

  lemma RedeliverProven(c: Chain, o: Options, arrived: set<Header>, hdr: Header)
    requires LaneProven(c, o, arrived) && hdr in arrived && PassesWork(o, hdr) && hdr.hash in c.byHash
    ensures LaneProven(Redeliver(c, hdr.hash), o, arrived)
  {
    HeaderWork.MeetsWorkExactly(hdr.hash, hdr.bits, o.minBits);
    hide HeaderWork.ProvesWork;
    var h := c.byHash[hdr.hash];
    var c' := Redeliver(c, hdr.hash);
    if Held(c, h, hdr.hash) && EntryAt(c, h, hdr.hash).viaAnchor {
      assert Proven(o, arrived, hdr.hash, EntryAt(c', h, hdr.hash));
    }
    assert forall k, y :: Held(c', k, y) ==>
                            Held(c, k, y) && ((k == h && y == hdr.hash) || EntryAt(c', k, y) == EntryAt(c, k, y));
  }

  lemma ReanchorProven(c: Chain, o: Options, arrived: set<Header>, p: Hash, h: Height, root: Hash)
    requires LaneProven(c, o, arrived)
    ensures LaneProven(Reanchor(c, p, h, root), o, arrived)
  {
    hide PassesWork;
    GrowHeld(c, h, p, Entry(root, ZERO_HASH, true));
  }

  lemma AttachProven(c: Chain, o: Options, arrived: set<Header>, hdr: Header, h: Height)
    requires LaneProven(c, o, arrived) && hdr in arrived && PassesWork(o, hdr)
    ensures LaneProven(Attach(c, o, hdr.hash, hdr.prev, hdr.root, h), o, arrived)
  {
    HeaderWork.MeetsWorkExactly(hdr.hash, hdr.bits, o.minBits);
    hide Attach, HeaderWork.ProvesWork;
    AttachEntries(c, o, hdr.hash, hdr.prev, hdr.root, h);
    assert Proven(o, arrived, hdr.hash, Entry(hdr.root, hdr.prev, false));
  }

  lemma StepProven(w: World, o: Options, t: Truth, a: Action, arrived: set<Header>)
    requires RaceProven(w, o, arrived) && Enabled(w, t, a)
    ensures RaceProven(Apply(w, o, t, a), o, arrived + Arrival(a))
  {
    hide LaneProven, PassesWork, Attach, Reanchor, Redeliver;
    var all := arrived + Arrival(a);
    ProvenLater(w.chain, o, arrived, Arrival(a));
    assert forall id :: id in w.threads ==> Carries(o, all, w.threads[id]);
    match a
    case Arrive(_, hdr) =>
      if PassesWork(o, hdr) && hdr.hash in w.chain.byHash {
        RedeliverProven(w.chain, o, all, hdr);
      }
    case Resolve(id, root) =>
      var hdr := w.threads[id].hdr;
      ReanchorProven(w.chain, o, all, hdr.prev, t(hdr.prev), root);
    case Attaching(id) =>
      var Ready(hdr, parentH) := w.threads[id];
      assert Carries(o, all, w.threads[id]);
      AttachProven(w.chain, o, all, hdr, parentH);
    case Orphan(_) =>
    case Learn(_) =>
  }

  lemma {:induction false} RunProven(w: World, o: Options, t: Truth, run: seq<Action>, arrived: set<Header>)
    requires RaceProven(w, o, arrived) && EnabledRun(w, o, t, run)
    ensures RaceProven(Run(w, o, t, run), o, arrived + Arrivals(run))
    decreases run
  {
    hide RaceProven, Apply, Enabled;
    if run == [] {
      assert arrived + Arrivals(run) == arrived;
    } else {
      StepProven(w, o, t, run[0], arrived);
      RunProven(Apply(w, o, t, run[0]), o, t, run[1..], arrived + Arrival(run[0]));
      assert arrived + Arrival(run[0]) + Arrivals(run[1..]) == arrived + Arrivals(run);
    }
  }

  /** However deliveries interleave: every held entry not marked viaAnchor is that of an
      arrived header whose hash meets its own target and the floor, with its own root
      unless it was re-anchored, and so is every tip but the startup anchor. */
  lemma RaceWorked(o: Options, t: Truth, run: seq<Action>)
    requires t(o.anchorHash) == o.anchorHeight
    requires EnabledRun(Begin(o), o, t, run)
    ensures var c := Run(Begin(o), o, t, run).chain;
            && (forall h, x :: Held(c, h, x) && !EntryAt(c, h, x).viaAnchor ==>
                                 Proven(o, Arrivals(run), x, EntryAt(c, h, x)))
            && (c.tip == o.anchorHash || exists hdr :: hdr in Arrivals(run) && hdr.hash == c.tip &&
                                            HeaderWork.ProvesWork(hdr.hash, hdr.bits, o.minBits))
  {
    hide EnabledRun, Run, HeaderWork.ProvesWork;
    BeginOk(o, t);
    RunKeeps(Begin(o), o, t, run);
    RunProven(Begin(o), o, t, run, {});
    assert {} + Arrivals(run) == Arrivals(run);
    var c := Run(Begin(o), o, t, run).chain;
    if c.tip != o.anchorHash {
      TipHeld(c, o);
      assert Proven(o, Arrivals(run), c.tip, EntryAt(c, c.tipH, c.tip));
    }
  }

  lemma TipHeld(c: Chain, o: Options)
    requires TipOk(c, o) && c.tip != o.anchorHash
    ensures Held(c, c.tipH, c.tip) && !EntryAt(c, c.tipH, c.tip).viaAnchor
  {
  }

  // ---------------------------------------------- where interleaving is visible

  /** The header about to be attached is canonical already (another delivery
      re-anchored it meanwhile), and its parent is in the window but is not
      canonical at the height below. */
  predicate Stale(c: Chain, o: Options, x: Hash, prev: Hash, parentH: Height)
  {
    && parentH != MAX_HEIGHT && parentH >= Cutoff(c, o)
    && Next(parentH) in c.canon && c.canon[Next(parentH)] == x
    && prev != ZERO_HASH && prev in c.byHash
    && !(parentH in c.canon && c.canon[parentH] == prev)
  }

  /** A header not canonical yet is attached under a closed canonical map. */
  lemma InsertClosed(c: Chain, o: Options, x: Hash, prev: Hash, root: Hash, parentH: Height)
    requires Base(c, o) && TipOk(c, o) && Attachable(c, o, x, prev, parentH) && Closed(c, Cutoff(c, o))
    requires !Stale(c, o, x, prev, parentH)
    ensures Closed(Insert(c, x, prev, root, parentH), Cutoff(c, o))
  {
    var h := Next(parentH);
    var c1 := Insert(c, x, prev, root, parentH);
    GrowHeld(c, h, x, Entry(root, prev, false));
    forall k | k in c1.canon ensures ClosedAt(c1, Cutoff(c, o), k) {
      assert ClosedAt(c, Cutoff(c, o), k);
      if c.canon[k] != x {
        InsertClosedAt(c, o, x, prev, root, parentH, k);
      }
    }
  }

  /** Under interleaving the third section leaves the canonical map closed
      exactly when the header is not Stale. */
  lemma AttachClosedIff(c: Chain, o: Options, x: Hash, prev: Hash, root: Hash, parentH: Height)
    requires Base(c, o) && TipOk(c, o) && Attachable(c, o, x, prev, parentH) && Closed(c, Cutoff(c, o))
    ensures var c' := Attach(c, o, x, prev, root, parentH);
            Closed(c', Cutoff(c', o)) <==> !Stale(c, o, x, prev, parentH)
  {
    var c1 := Insert(c, x, prev, root, parentH);
    if Stale(c, o, x, prev, parentH) {
      assert Next(parentH) <= c.tipH;
      assert !MovesTip(c, prev, parentH);
      assert !ClosedAt(c1, Cutoff(c, o), Next(parentH));
    } else {
      InsertClosed(c, o, x, prev, root, parentH);
      if MovesTip(c, prev, parentH) {
        InsertKeeps(c, o, x, prev, root, parentH);
        GrowHeld(c, Next(parentH), x, Entry(root, prev, false));
        MoveTipKeeps(c1, o, x, Next(parentH));
      }
    }
  }

  lemma InsertClosedAt(c: Chain, o: Options, x: Hash, prev: Hash, root: Hash, parentH: Height, k: Height)
    requires Base(c, o) && Attachable(c, o, x, prev, parentH)
    requires k in c.canon && c.canon[k] != x && ClosedAt(c, Cutoff(c, o), k)
    ensures ClosedAt(Insert(c, x, prev, root, parentH), Cutoff(c, o), k)
  {
    GrowHeld(c, Next(parentH), x, Entry(root, prev, false));
    var y := c.canon[k];
    if Held(c, k, y) && EntryAt(c, k, y).prev != ZERO_HASH {
      assert k > 0 && (k - 1 < Cutoff(c, o) || Parent(c, k, y, EntryAt(c, k, y).prev));
    }
  }

  // ------------------------------------------------------------ closure over runs

  /** The canonical map is closed now and after every step of the run. */
  ghost predicate AlwaysClosed(w: World, o: Options, t: Truth, run: seq<Action>)
    requires EnabledRun(w, o, t, run)
    decreases run
  {
    && Closed(w.chain, Cutoff(w.chain, o))
    && (run == [] || AlwaysClosed(Apply(w, o, t, run[0]), o, t, run[1..]))
  }

  /** No third section of the run attaches a Stale header. */
  ghost predicate NeverStale(w: World, o: Options, t: Truth, run: seq<Action>)
    requires EnabledRun(w, o, t, run)
    decreases run
  {
    run == [] || (!AttachesStale(w, o, run[0]) && NeverStale(Apply(w, o, t, run[0]), o, t, run[1..]))
  }

  predicate AttachesStale(w: World, o: Options, a: Action)
  {
    && a.Attaching? && a.id in w.threads && w.threads[a.id].Ready?
    && var Ready(hdr, parentH) := w.threads[a.id];
       Stale(w.chain, o, hdr.hash, hdr.prev, parentH)
  }

  lemma RedeliverClosed(c: Chain, o: Options, x: Hash)
    requires Closed(c, Cutoff(c, o)) && x in c.byHash
    ensures Closed(Redeliver(c, x), Cutoff(Redeliver(c, x), o))
  {
    var c' := Redeliver(c, x);
    RedeliverFrame(c, x);
    forall h | h in c'.canon
      ensures ClosedAt(c', Cutoff(c, o), h)
    {
      assert ClosedAt(c, Cutoff(c, o), h);
    }
  }

  /** From a closed map, one step leaves it closed exactly when it attaches no Stale
      header. */
  lemma StepClosedIff(w: World, o: Options, t: Truth, a: Action)
    requires RaceInv(w, o, t) && Enabled(w, t, a) && Closed(w.chain, Cutoff(w.chain, o))
    ensures var c' := Apply(w, o, t, a).chain; Closed(c', Cutoff(c', o)) <==> !AttachesStale(w, o, a)
  {
    hide Closed, Stale;
    match a
    case Arrive(_, hdr) =>
      if hdr.hash in w.chain.byHash {
        RedeliverClosed(w.chain, o, hdr.hash);
      }
    case Resolve(id, root) =>
      ReanchorBase(w.chain, o, w.threads[id].hdr.prev, t(w.threads[id].hdr.prev), root);
    case Attaching(id) =>
      var Ready(hdr, parentH) := w.threads[id];
      AttachableNow(w, o, t, id);
      AttachClosedIff(w.chain, o, hdr.hash, hdr.prev, hdr.root, parentH);
    case Orphan(_) =>
    case Learn(_) =>
  }

  lemma {:induction false} ClosedIffFrom(w: World, o: Options, t: Truth, run: seq<Action>)
    requires RaceInv(w, o, t) && EnabledRun(w, o, t, run) && Closed(w.chain, Cutoff(w.chain, o))
    ensures AlwaysClosed(w, o, t, run) <==> NeverStale(w, o, t, run)
    decreases run
  {
    hide Closed, RaceInv, AttachesStale;
    if run == [] {
    } else {
      var w' := Apply(w, o, t, run[0]);
      StepClosedIff(w, o, t, run[0]);
      if !AttachesStale(w, o, run[0]) {
        ApplyKeeps(w, o, t, run[0]);
        ClosedIffFrom(w', o, t, run[1..]);
      } else {
        NotClosedNow(w', o, t, run[1..]);
      }
    }
  }

  lemma NotClosedNow(w: World, o: Options, t: Truth, run: seq<Action>)
    requires EnabledRun(w, o, t, run) && !Closed(w.chain, Cutoff(w.chain, o))
    ensures !AlwaysClosed(w, o, t, run)
  {
  }

  /** Every interleaved run keeps the canonical map closed throughout if and only if none
      of its third sections attaches a Stale header. */
  lemma RunClosedIff(o: Options, t: Truth, run: seq<Action>)
    requires t(o.anchorHash) == o.anchorHeight
    requires EnabledRun(Begin(o), o, t, run)
    ensures AlwaysClosed(Begin(o), o, t, run) <==> NeverStale(Begin(o), o, t, run)
  {
    BeginOk(o, t);
    InitValid(o);
    ClosedIffFrom(Begin(o), o, t, run);
  }
}
