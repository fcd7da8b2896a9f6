/**
  Whole runs of the header store: any interleaving of delivered headers (with
  any Lookup answers), root queries, fallback fetches and warm-up loads.
*/
module HeaderRuns {
  import opened Bytes
  import opened HeaderChain
  import opened HeaderChainProofs
  import HeaderWork

  /** The store: the chain, the fallback cache and the provenance counters. */
  datatype View = View(
    chain: Chain,
    cache: map<Height, Hash>,
    lane: nat, history: nat, fallback: nat, misses: nat)

  const FALLBACK_CAP := 0x1_0000

  /** What the fallback answers for a height; None is an error or no fallback. */
  type Fallback = Height -> Option<Hash>

  /** absent: at which heights the fallback answers no root rather than an error. */
  datatype Env = Env(opt: Options, digest: Bytes -> Hash, fallback: Fallback, absent: Height -> bool)

  datatype Event =
    | Header(raw: Bytes, answer: Answer) // one delivery on the lane
    | Ask(height: Height)                // RootAt up to the fallback call
    | Fetch(height: Height)              // RootAt from the fallback's answer on
    | Warm(height: Height)               // one warm-up load

  function Start(env: Env): View
  {
    View(Init(env.opt), map[], 0, 0, 0, 0)
  }

  /** The canonical header held at a height. */
  function CanonicalEntry(c: Chain, h: Height): Option<Entry>
  {
    if h in c.canon && Held(c, h, c.canon[h]) then Some(EntryAt(c, h, c.canon[h])) else None
  }

  /** A root the anchor supplied is history at or below historyTop. */
  function BookAnchored(v: View, h: Height): View
  {
    if h <= v.chain.historyTop then v.(history := v.history + 1) else v.(fallback := v.fallback + 1)
  }

  /** RootAt's answer without asking the fallback; None goes on to Fetch. */
  function AskAnswer(v: View, h: Height): Option<Hash>
  {
    var e := CanonicalEntry(v.chain, h);
    if e.Some? then Some(e.value.root)
    else if h in v.cache then Some(v.cache[h])
    else None
  }

  function AskStep(v: View, h: Height): View
  {
    var e := CanonicalEntry(v.chain, h);
    if e.Some? then (if e.value.viaAnchor then BookAnchored(v, h) else v.(lane := v.lane + 1))
    else if h in v.cache then BookAnchored(v, h)
    else v
  }

  function FetchStep(v: View, h: Height, r: Option<Hash>): View
  {
    if r.None? then v.(misses := v.misses + 1)
    else
      var cache := if |v.cache| >= FALLBACK_CAP then map[] else v.cache;
      BookAnchored(v.(cache := cache[h := r.value]), h)
  }

  function WarmStep(v: View, h: Height, r: Option<Hash>): View
  {
    if r.Some? && |v.cache| < FALLBACK_CAP then v.(cache := v.cache[h := r.value]) else v
  }

  /** A header that passes the size and work checks, so reaches the chain. */
  predicate Accepted(env: Env, raw: Bytes)
  {
    |raw| == HeaderWork.HEADER_SIZE &&
    HeaderWork.MeetsWork(env.digest(raw), HeaderWork.BitsOf(raw), env.opt.minBits)
  }

  ghost function HeaderStep(c: Chain, env: Env, raw: Bytes, answer: Answer): Chain
  {
    if !Accepted(env, raw) then c
    else Observe(c, env.opt, env.digest(raw), HeaderWork.PrevOf(raw), HeaderWork.RootOf(raw), answer)
  }

  ghost function Step(v: View, env: Env, e: Event): View
  {
    match e
    case Header(raw, answer) => v.(chain := HeaderStep(v.chain, env, raw, answer))
    case Ask(h) => AskStep(v, h)
    case Fetch(h) => FetchStep(v, h, env.fallback(h))
    case Warm(h) => WarmStep(v, h, env.fallback(h))
  }

  ghost function Run(v: View, env: Env, es: seq<Event>): View
    decreases es
  {
    if es == [] then v else Run(Step(v, env, es[0]), env, es[1..])
  }

  /** No delivered header names itself as parent, and no parent is at 2^32-1. */
  ghost predicate SoundEvent(v: View, env: Env, e: Event)
  {
    e.Header? && Accepted(env, e.raw) ==>
      Sound(v.chain, env.digest(e.raw), HeaderWork.PrevOf(e.raw), e.answer)
  }

  ghost predicate SoundRun(v: View, env: Env, es: seq<Event>)
    decreases es
  {
    es == [] || (SoundEvent(v, env, es[0]) && SoundRun(Step(v, env, es[0]), env, es[1..]))
  }

  // ------------------------------------------------------------ proof of work

  /** raw is a header whose hash is within the target it declares, and that target no
      easier than the floor. */
  ghost predicate Proves(env: Env, raw: Bytes)
  {
    |raw| == HeaderWork.HEADER_SIZE &&
    HeaderWork.ProvesWork(env.digest(raw), HeaderWork.BitsOf(raw), env.opt.minBits)
  }

  lemma AcceptedProves(env: Env, raw: Bytes)
    ensures Accepted(env, raw) <==> Proves(env, raw)
  {
    if |raw| == HeaderWork.HEADER_SIZE {
      HeaderWork.MeetsWorkExactly(env.digest(raw), HeaderWork.BitsOf(raw), env.opt.minBits);
    }
  }

  /** x is the hash of a delivered header that meets its target and the floor;
      an entry that records a parent is that header's own. */
  ghost predicate LaneProof(env: Env, delivered: set<Bytes>, x: Hash, e: Entry)
  {
    exists raw :: raw in delivered && Proves(env, raw) && env.digest(raw) == x &&
                  (e.prev != ZERO_HASH ==> e.root == HeaderWork.RootOf(raw) && e.prev == HeaderWork.PrevOf(raw))
  }

  ghost predicate Worked(c: Chain, env: Env, delivered: set<Bytes>)
  {
    && (forall h, x :: Held(c, h, x) && !EntryAt(c, h, x).viaAnchor ==> LaneProof(env, delivered, x, EntryAt(c, h, x)))
    && (forall h, x :: Held(c, h, x) && EntryAt(c, h, x).viaAnchor ==> EntryAt(c, h, x).prev == ZERO_HASH)
  }

  lemma WorkedLater(c: Chain, env: Env, delivered: set<Bytes>, raw: Bytes)
    requires Worked(c, env, delivered)
    ensures Worked(c, env, delivered + {raw})
  {
    forall x, e | LaneProof(env, delivered, x, e)
      ensures LaneProof(env, delivered + {raw}, x, e)
    {
    }
  }

  lemma RedeliverWorked(c: Chain, env: Env, delivered: set<Bytes>, raw: Bytes)
    requires Worked(c, env, delivered) && raw in delivered && Accepted(env, raw) && env.digest(raw) in c.byHash
    ensures Worked(Redeliver(c, env.digest(raw)), env, delivered)
  {
    AcceptedProves(env, raw);
    hide Proves, Accepted;
    var x := env.digest(raw);
    var h := c.byHash[x];
    var c' := Redeliver(c, x);
    if Held(c, h, x) && EntryAt(c, h, x).viaAnchor {
      assert LaneProof(env, delivered, x, EntryAt(c', h, x));
    }
    assert forall k, y :: Held(c', k, y) ==>
                            Held(c, k, y) && ((k == h && y == x) || EntryAt(c', k, y) == EntryAt(c, k, y));
  }

  lemma ReanchorWorked(c: Chain, env: Env, delivered: set<Bytes>, p: Hash, h: Height, root: Hash)
    requires Worked(c, env, delivered)
    ensures Worked(Reanchor(c, p, h, root), env, delivered)
  {
    GrowHeld(c, h, p, Entry(root, ZERO_HASH, true));
  }

  lemma AttachWorked(c: Chain, env: Env, delivered: set<Bytes>, raw: Bytes, h: Height)
    requires Worked(c, env, delivered) && raw in delivered && Accepted(env, raw)
    ensures Worked(Attach(c, env.opt, env.digest(raw), HeaderWork.PrevOf(raw), HeaderWork.RootOf(raw), h), env, delivered)
  {
    AcceptedProves(env, raw);
    hide Attach, Proves;
    var x, prev, root := env.digest(raw), HeaderWork.PrevOf(raw), HeaderWork.RootOf(raw);
    AttachEntries(c, env.opt, x, prev, root, h);
    assert LaneProof(env, delivered, x, Entry(root, prev, false));
  }

  lemma HeaderStepWorked(c: Chain, env: Env, delivered: set<Bytes>, raw: Bytes, answer: Answer)
    requires Worked(c, env, delivered)
    ensures Worked(HeaderStep(c, env, raw, answer), env, delivered + {raw})
  {
    hide Worked, Attach, Reanchor, Redeliver;
    var all := delivered + {raw};
    WorkedLater(c, env, delivered, raw);
    if Accepted(env, raw) {
      var x, prev := env.digest(raw), HeaderWork.PrevOf(raw);
      if x in c.byHash {
        RedeliverWorked(c, env, all, raw);
      } else if Attaches(c, x, prev, answer) {
        var h := ParentHeight(c, prev, answer);
        var c1 := if prev in c.byHash then c else Reanchor(c, prev, h, answer.value.1);
        if prev !in c.byHash {
          ReanchorWorked(c, env, all, prev, h, answer.value.1);
        }
        AttachWorked(c1, env, all, raw, h);
      }
    }
  }

  function Delivered(es: seq<Event>): set<Bytes>
  {
    if es == [] then {} else (if es[0].Header? then {es[0].raw} else {}) + Delivered(es[1..])
  }

  lemma {:induction false} RunWorkedFrom(v: View, env: Env, es: seq<Event>, before: set<Bytes>)
    requires Worked(v.chain, env, before)
    ensures Worked(Run(v, env, es).chain, env, before + Delivered(es))
    decreases es
  {
    if es == [] {
      assert before + Delivered(es) == before;
    } else {
      var v' := Step(v, env, es[0]);
      var now := before + (if es[0].Header? then {es[0].raw} else {});
      if es[0].Header? {
        HeaderStepWorked(v.chain, env, before, es[0].raw, es[0].answer);
      } else {
        assert v'.chain == v.chain && now == before;
      }
      RunWorkedFrom(v', env, es[1..], now);
      assert now + Delivered(es[1..]) == before + Delivered(es);
    }
  }

  /** Over every run, with any Lookup: each lane header held was delivered with
      enough work, and carries its own root unless it was once re-anchored. */
  lemma RunWorked(env: Env, es: seq<Event>)
    ensures Worked(Run(Start(env), env, es).chain, env, Delivered(es))
  {
    RunWorkedFrom(Start(env), env, es, {});
    assert {} + Delivered(es) == Delivered(es);
  }

  /** root gives every delivered header its own merkle root, and every parent a Lookup
      is asked for the root it answers: the Lookup answers true roots. */
  predicate TrueRoots(env: Env, root: Hash -> Hash, es: seq<Event>)
  {
    forall i :: 0 <= i < |es| && es[i].Header? && Accepted(env, es[i].raw) ==> TrueRoot(env, root, es[i])
  }

  predicate TrueRoot(env: Env, root: Hash -> Hash, e: Event)
    requires e.Header? && Accepted(env, e.raw)
  {
    && HeaderWork.RootOf(e.raw) == root(env.digest(e.raw))
    && (e.answer.Some? ==> e.answer.value.1 == root(HeaderWork.PrevOf(e.raw)))
  }

  ghost predicate Rooted(c: Chain, root: Hash -> Hash)
  {
    forall h, x :: Held(c, h, x) ==> EntryAt(c, h, x).root == root(x)
  }

  lemma StepRooted(c: Chain, env: Env, root: Hash -> Hash, e: Event)
    requires Rooted(c, root) && e.Header? && Accepted(env, e.raw) && TrueRoot(env, root, e)
    ensures Rooted(HeaderStep(c, env, e.raw, e.answer), root)
  {
    hide Attach;
    var x, prev, r := env.digest(e.raw), HeaderWork.PrevOf(e.raw), HeaderWork.RootOf(e.raw);
    if x in c.byHash {
      RedeliverFrame(c, x);
    } else if Attaches(c, x, prev, e.answer) {
      var h := ParentHeight(c, prev, e.answer);
      var c1 := if prev in c.byHash then c else Reanchor(c, prev, h, e.answer.value.1);
      if prev !in c.byHash {
        GrowHeld(c, h, prev, Entry(e.answer.value.1, ZERO_HASH, true));
      }
      AttachEntries(c1, env.opt, x, prev, r, h);
    }
  }

  lemma {:induction false} RunRooted(v: View, env: Env, root: Hash -> Hash, es: seq<Event>)
    requires Rooted(v.chain, root) && TrueRoots(env, root, es)
    ensures Rooted(Run(v, env, es).chain, root)
    decreases es
  {
    if es == [] {
    } else {
      if es[0].Header? && Accepted(env, es[0].raw) {
        StepRooted(v.chain, env, root, es[0]);
      }
      RunRooted(Step(v, env, es[0]), env, root, es[1..]);
    }
  }

  lemma {:induction false} DeliveredAt(es: seq<Event>, raw: Bytes) returns (i: nat)
    requires raw in Delivered(es)
    ensures i < |es| && es[i].Header? && es[i].raw == raw
    decreases es
  {
    if es[0].Header? && es[0].raw == raw {
      i := 0;
    } else {
      i := DeliveredAt(es[1..], raw);
      i := i + 1;
    }
  }

  /** Over every run with a Lookup that answers true roots, each lane header held was
      delivered with enough work and carries its own root, the promoted ones included;
      and every canonical root is its header's. */
  lemma RunOwnRoots(env: Env, root: Hash -> Hash, es: seq<Event>, h: Height, x: Hash)
    requires TrueRoots(env, root, es) && Held(Run(Start(env), env, es).chain, h, x)
    ensures EntryAt(Run(Start(env), env, es).chain, h, x).root == root(x)
    ensures !EntryAt(Run(Start(env), env, es).chain, h, x).viaAnchor ==>
              exists raw :: raw in Delivered(es) && Proves(env, raw) && env.digest(raw) == x
                            && EntryAt(Run(Start(env), env, es).chain, h, x).root == HeaderWork.RootOf(raw)
  {
    hide Run;
    RootedNew(env, root);
    RunRooted(Start(env), env, root, es);
    RunWorked(env, es);
    var c := Run(Start(env), env, es).chain;
    if !EntryAt(c, h, x).viaAnchor {
      assert LaneProof(env, Delivered(es), x, EntryAt(c, h, x));
      var raw :| raw in Delivered(es) && Proves(env, raw) && env.digest(raw) == x;
      AcceptedProves(env, raw);
      var i := DeliveredAt(es, raw);
      assert TrueRoot(env, root, es[i]);
    }
  }

  lemma RootedNew(env: Env, root: Hash -> Hash)
    ensures Rooted(Start(env).chain, root)
  {
  }

  // ------------------------------------------------- the chain over whole runs

  lemma StepValid(v: View, env: Env, e: Event)
    requires Valid(v.chain, env.opt) && SoundEvent(v, env, e)
    ensures Valid(Step(v, env, e).chain, env.opt)
    ensures v.chain.tipH <= Step(v, env, e).chain.tipH
  {
    if e.Header? && Accepted(env, e.raw) {
      ObserveKeeps(v.chain, env.opt, env.digest(e.raw), HeaderWork.PrevOf(e.raw), HeaderWork.RootOf(e.raw), e.answer);
    }
  }

  /** Every sound run, with any Lookup answers, reorganisations and pruning,
      keeps the invariant: indexes agree, the canonical map is closed. */
  lemma {:induction false} RunValid(v: View, env: Env, es: seq<Event>)
    requires Valid(v.chain, env.opt) && SoundRun(v, env, es)
    ensures Valid(Run(v, env, es).chain, env.opt)
    ensures v.chain.tipH <= Run(v, env, es).chain.tipH
    decreases es
  {
    if es == [] {
    } else {
      StepValid(v, env, es[0]);
      RunValid(Step(v, env, es[0]), env, es[1..]);
    }
  }

  /** Every tip but the startup anchor was delivered, its hash read as a
      little-endian number is within the target it declares, and that target is
      no easier than the floor. */
  lemma TipWorked(env: Env, es: seq<Event>)
    requires SoundRun(Start(env), env, es)
    ensures var tip := Run(Start(env), env, es).chain.tip;
            tip == env.opt.anchorHash || exists raw :: raw in Delivered(es) && Proves(env, raw) && env.digest(raw) == tip
  {
    hide Proves;
    InitValid(env.opt);
    RunValid(Start(env), env, es);
    RunWorked(env, es);
    var c := Run(Start(env), env, es).chain;
    if c.tip != env.opt.anchorHash {
      assert LaneProof(env, Delivered(es), c.tip, EntryAt(c, c.tipH, c.tip));
    }
  }

  /** The k-th recorded ancestor of x at height h, while parents are known. */
  function Ancestor(c: Chain, h: Height, x: Hash, k: nat): Option<Hash>
    decreases k
  {
    if k == 0 then Some(x)
    else if Held(c, h, x) && Parent(c, h, x, EntryAt(c, h, x).prev)
    then Ancestor(c, h - 1, EntryAt(c, h, x).prev, k - 1)
    else None
  }

  lemma {:induction false} AncestorCanonical(c: Chain, o: Options, h: Height, x: Hash, k: nat)
    requires Valid(c, o) && h in c.canon && c.canon[h] == x
    requires Ancestor(c, h, x, k).Some? && k <= h && h - k >= Cutoff(c, o)
    ensures h - k in c.canon && Ancestor(c, h, x, k) == Some(c.canon[h - k])
    decreases k
  {
    if k == 0 {
    } else {
      assert ClosedAt(c, Cutoff(c, o), h);
      AncestorCanonical(c, o, h - 1, EntryAt(c, h, x).prev, k - 1);
    }
  }

  /** The canonical map holds the tip's k-th ancestor at tipH - k. */
  ghost predicate TipAncestry(c: Chain, o: Options, k: nat)
  {
    c.tip != o.anchorHash && k <= c.tipH && c.tipH - k >= Cutoff(c, o) && Ancestor(c, c.tipH, c.tip, k).Some? ==>
      c.tipH - k in c.canon && Ancestor(c, c.tipH, c.tip, k) == Some(c.canon[c.tipH - k])
  }

  lemma ValidTipAncestry(c: Chain, o: Options, k: nat)
    requires Valid(c, o)
    ensures TipAncestry(c, o, k)
    ensures forall h :: h in c.canon ==> h <= c.tipH
  {
    if c.tip != o.anchorHash && k <= c.tipH && c.tipH - k >= Cutoff(c, o) && Ancestor(c, c.tipH, c.tip, k).Some? {
      AncestorCanonical(c, o, c.tipH, c.tip, k);
    }
  }

  /** After any sound run the canonical map is the tip's own ancestry: at every
      height of the window that the recorded parents reach, and nothing above. */
  lemma CanonIsTipAncestry(env: Env, es: seq<Event>, k: nat)
    requires SoundRun(Start(env), env, es)
    ensures TipAncestry(Run(Start(env), env, es).chain, env.opt, k)
    ensures forall h :: h in Run(Start(env), env, es).chain.canon ==> h <= Run(Start(env), env, es).chain.tipH
  {
    InitValid(env.opt);
    RunValid(Start(env), env, es);
    ValidTipAncestry(Run(Start(env), env, es).chain, env.opt, k);
  }

  /** Held headers lie in the window whenever a delivery has moved the tip. */
  lemma TipMoveWindow(v: View, env: Env, e: Event)
    requires Valid(v.chain, env.opt) && SoundEvent(v, env, e)
    requires Step(v, env, e).chain.tipH != v.chain.tipH
    ensures var c := Step(v, env, e).chain;
            forall h: Height, x :: Held(c, h, x) ==> Cutoff(c, env.opt) <= h <= c.tipH
  {
    StepValid(v, env, e);
    var c, x, prev := v.chain, env.digest(e.raw), HeaderWork.PrevOf(e.raw);
    var h := ParentHeight(c, prev, e.answer);
    var c1 := if prev in c.byHash then c else Reanchor(c, prev, h, e.answer.value.1);
    if prev !in c.byHash {
      ReanchorKeeps(c, env.opt, prev, h, e.answer.value.1);
    }
    AttachBase(c1, env.opt, x, prev, HeaderWork.RootOf(e.raw), h);
  }

  // ------------------------------------------------------------- the root cache

  ghost predicate CacheTrue(v: View, f: Fallback)
  {
    |v.cache| <= FALLBACK_CAP && forall h :: h in v.cache ==> f(h) == Some(v.cache[h])
  }

  /** RootAt with no cache at all. */
  function Uncached(v: View, f: Fallback, h: Height): Option<Hash>
  {
    var e := CanonicalEntry(v.chain, h);
    if e.Some? then Some(e.value.root) else f(h)
  }

  lemma {:induction false} RunCacheTrue(v: View, env: Env, es: seq<Event>)
    requires CacheTrue(v, env.fallback)
    ensures CacheTrue(Run(v, env, es), env.fallback)
    decreases es
  {
    if es == [] {
    } else {
      var v' := Step(v, env, es[0]);
      if es[0].Fetch? || es[0].Warm? {
        assert v'.cache == v.cache || |v'.cache| <= |v.cache| + 1 || |v'.cache| <= 1;
      }
      RunCacheTrue(v', env, es[1..]);
    }
  }

  /** In every reachable state the cached RootAt answers what the uncached one
      would: from the chain or cache at once, otherwise the fallback's answer. */
  lemma CachedRefinesUncached(env: Env, es: seq<Event>, h: Height)
    ensures var v := Run(Start(env), env, es);
            && |v.cache| <= FALLBACK_CAP
            && Uncached(v, env.fallback, h) == (if AskAnswer(v, h).Some? then AskAnswer(v, h) else env.fallback(h))
  {
    RunCacheTrue(Start(env), env, es);
  }

  function Booked(v: View): nat { v.lane + v.history + v.fallback + v.misses }

  /** One booking for every RootAt that ends, whichever section it ends in. */
  function Ends(v: View, e: Event): nat
  {
    match e
    case Ask(h) => if AskAnswer(v, h).Some? then 1 else 0
    case Fetch(_) => 1
    case _ => 0
  }

  ghost function Ended(v: View, env: Env, es: seq<Event>): nat
    decreases es
  {
    if es == [] then 0 else Ends(v, es[0]) + Ended(Step(v, env, es[0]), env, es[1..])
  }

  lemma {:induction false} BookedOnce(v: View, env: Env, es: seq<Event>)
    ensures Booked(Run(v, env, es)) == Booked(v) + Ended(v, env, es)
    decreases es
  {
    if es == [] {
    } else {
      BookedOnce(Step(v, env, es[0]), env, es[1..]);
    }
  }

  lemma StepHistoryTop(v: View, env: Env, e: Event)
    ensures v.chain.historyTop <= Step(v, env, e).chain.historyTop
    ensures forall h :: h in v.chain.at && h !in Step(v, env, e).chain.at ==> h <= Step(v, env, e).chain.historyTop
  {
    if e.Header? && Accepted(env, e.raw) {
      var c, x, prev := v.chain, env.digest(e.raw), HeaderWork.PrevOf(e.raw);
      if Attaches(c, x, prev, e.answer) {
        var h := ParentHeight(c, prev, e.answer);
        var c1 := if prev in c.byHash then c else Reanchor(c, prev, h, e.answer.value.1);
        var c2 := Insert(c1, x, prev, HeaderWork.RootOf(e.raw), h);
        RecanonFrame(c2.(tip := x, tipH := Next(h)), x, Next(h));
      }
    }
  }

  /** A height already history, or that a run prunes, never books fallback in
      any continuation of that run. */
  lemma {:induction false} HistoryIsForever(v: View, env: Env, es: seq<Event>, h: Height)
    requires h <= v.chain.historyTop || (h in v.chain.at && h !in Run(v, env, es).chain.at)
    ensures BookAnchored(Run(v, env, es), h).fallback == Run(v, env, es).fallback
    decreases es
  {
    if es == [] {
    } else {
      StepHistoryTop(v, env, es[0]);
      HistoryIsForever(Step(v, env, es[0]), env, es[1..], h);
    }
  }
}
