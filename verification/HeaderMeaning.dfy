/**
  What observing one header does to the chain (headers/chain.go), heights and entries in
  full; what a root query books; and one delivery of the interleaved store, run alone.
*/
module HeaderMeaning {
  import opened Bytes
  import opened HeaderChain
  import opened HeaderChainProofs
  import opened HeaderRuns
  import HeaderRace
  import HeaderWork

  /** A header already known is a lane header from then on, and nothing else changes. */
  lemma ObserveKnown(c: Chain, o: Options, x: Hash, prev: Hash, root: Hash, answer: Answer)
    requires x in c.byHash
    ensures var c' := Observe(c, o, x, prev, root, answer);
            && c' == c.(at := c'.at) && c'.at.Keys == c.at.Keys
            && (forall k, y :: Held(c', k, y) <==> Held(c, k, y))
            && (forall k, y :: Held(c, k, y) && !(y == x && k == c.byHash[x]) ==> EntryAt(c', k, y) == EntryAt(c, k, y))
            && (Held(c, c.byHash[x], x) ==>
                  EntryAt(c', c.byHash[x], x) == EntryAt(c, c.byHash[x], x).(viaAnchor := false))
  {
    RedeliverFrame(c, x);
  }

  /** A header whose parent is unknown and not found leaves the chain alone. */
  lemma ObserveOrphan(c: Chain, o: Options, x: Hash, prev: Hash, root: Hash)
    requires x !in c.byHash && prev !in c.byHash
    ensures Observe(c, o, x, prev, root, None) == c
  {
  }

  /** A height that the retention window drops once the tip is at tip. */
  predicate Dropped(o: Options, k: Height, tip: Height)
  {
    o.window > 0 && k + o.window < tip
  }

  /** What the chain holds once x is attached at h: what it held, x and, if it was not
      known, the parent the Lookup named, as long as they are not dropped. */
  predicate HeldAfter(c: Chain, o: Options, x: Hash, prev: Hash, h: Height, k: Height, y: Hash)
  {
    && (Held(c, k, y) || (k == h && y == x) || (prev !in c.byHash && k + 1 == h && y == prev))
    && !(h > c.tipH && Dropped(o, k, h))
  }

  function EntryAfter(c: Chain, x: Hash, prev: Hash, root: Hash, answer: Answer, k: Height, y: Hash): Entry
    requires y == x || Held(c, k, y) || answer.Some?
  {
    if y == x then Entry(root, prev, false)
    else if Held(c, k, y) then EntryAt(c, k, y)
    else Entry(answer.value.1, ZERO_HASH, true)
  }

  /** A header whose parent's height is known or found is held one above it with its own
      root and parent, and its parent, if it was found, with the root found; every competitor
      stays as it was; the tip is the header if and only if it is higher than the tip; and
      exactly what falls out of the window behind a new tip goes. */
  lemma ObserveAttached(c: Chain, o: Options, x: Hash, prev: Hash, root: Hash, answer: Answer)
    requires Valid(c, o) && Sound(c, x, prev, answer) && Attaches(c, x, prev, answer)
    ensures var c' := Observe(c, o, x, prev, root, answer);
            var h := ParentHeight(c, prev, answer) + 1;
            && c'.tipH == (if h > c.tipH then h else c.tipH)
            && c'.tip == (if h > c.tipH then x else c.tip)
            && (forall k: Height, y :: Held(c', k, y) <==> HeldAfter(c, o, x, prev, h, k, y))
            && (forall k: Height, y :: Held(c', k, y) ==> EntryAt(c', k, y) == EntryAfter(c, x, prev, root, answer, k, y))
            && (h <= c.tipH ==> c'.canon == c.canon && c'.historyTop == c.historyTop)
            && (h > c.tipH ==> h in c'.canon && c'.canon[h] == x && c'.historyTop == TopAfter(c, o, h))
  {
    var p := ParentHeight(c, prev, answer);
    if prev in c.byHash {
      AttachMoves(c, o, x, prev, root, p);
      hide Attach, Valid;
    } else {
      AttachesFound(c, o, x, prev, root, answer);
      hide Attach, Reanchor, Valid;
    }
  }

  lemma AttachesFound(c: Chain, o: Options, x: Hash, prev: Hash, root: Hash, answer: Answer)
    requires Valid(c, o) && Sound(c, x, prev, answer) && Attaches(c, x, prev, answer) && prev !in c.byHash
    ensures var (p, r) := answer.value;
            var c' := Attach(Reanchor(c, prev, p, r), o, x, prev, root, p);
            var h := p + 1;
            && c'.tipH == (if h > c.tipH then h else c.tipH)
            && c'.tip == (if h > c.tipH then x else c.tip)
            && (forall k: Height, y :: Held(c', k, y) <==> HeldAfter(c, o, x, prev, h, k, y))
            && (forall k: Height, y :: Held(c', k, y) ==> EntryAt(c', k, y) == EntryAfter(c, x, prev, root, answer, k, y))
            && (h <= c.tipH ==> c'.canon == c.canon && c'.historyTop == c.historyTop)
            && (h > c.tipH ==> h in c'.canon && c'.canon[h] == x && c'.historyTop == TopAfter(c, o, h))
  {
    var (p, r) := answer.value;
    var c1 := Reanchor(c, prev, p, r);
    ReanchoredAttachable(c, o, x, prev, answer);
    GrowHeld(c, p, prev, Entry(r, ZERO_HASH, true));
    AttachMoves(c1, o, x, prev, root, p);
    hide Attach, Valid, Attachable, Base, TipOk;
    assert HeldThere(c, c1, prev, p);
  }

  /** c1 is c with prev held at p. */
  predicate HeldThere(c: Chain, c1: Chain, prev: Hash, p: Height)
  {
    c1.tip == c.tip && c1.tipH == c.tipH && c1.canon == c.canon && c1.historyTop == c.historyTop && Held(c1, p, prev)
  }

  /** The highest height that is history once h is the tip. */
  function TopAfter(c: Chain, o: Options, h: Height): int
  {
    if o.window > 0 && h > o.window && h - o.window - 1 > c.historyTop then h - o.window - 1 else c.historyTop
  }

  lemma AttachMoves(c: Chain, o: Options, x: Hash, prev: Hash, root: Hash, p: Height)
    requires Base(c, o) && TipOk(c, o) && Attachable(c, o, x, prev, p) && x !in c.byHash && prev in c.byHash
    ensures var c' := Attach(c, o, x, prev, root, p);
            && c'.tipH == (if p + 1 > c.tipH then p + 1 else c.tipH)
            && c'.tip == (if p + 1 > c.tipH then x else c.tip)
            && (forall k: Height, y :: Held(c', k, y) <==>
                  (Held(c, k, y) || (k == p + 1 && y == x)) && !(p + 1 > c.tipH && Dropped(o, k, p + 1)))
            && (forall k: Height, y :: Held(c', k, y) ==>
                  EntryAt(c', k, y) == if k == p + 1 && y == x then Entry(root, prev, false) else EntryAt(c, k, y))
            && (p + 1 <= c.tipH ==> c'.canon == c.canon && c'.historyTop == c.historyTop)
            && (p + 1 > c.tipH ==> p + 1 in c'.canon && c'.canon[p + 1] == x && c'.historyTop == TopAfter(c, o, p + 1))
  {
    GrowHeld(c, p + 1, x, Entry(root, prev, false));
    if p + 1 > c.tipH {
      AttachRises(c, o, x, prev, root, p);
      hide Attach, Base;
    } else {
      assert prev != c.tip;
      hide Base, Prune, Recanon;
    }
  }

  lemma AttachRises(c: Chain, o: Options, x: Hash, prev: Hash, root: Hash, p: Height)
    requires Base(c, o) && TipOk(c, o) && Attachable(c, o, x, prev, p) && p + 1 > c.tipH
    ensures var c1, c' := Insert(c, x, prev, root, p), Attach(c, o, x, prev, root, p);
            && c'.tipH == p + 1 && c'.tip == x && c'.historyTop == TopAfter(c, o, p + 1)
            && (forall k: Height, y :: Held(c', k, y) <==> Held(c1, k, y) && !Dropped(o, k, p + 1))
            && (forall k: Height, y :: Held(c', k, y) ==> EntryAt(c', k, y) == EntryAt(c1, k, y))
            && p + 1 in c'.canon && c'.canon[p + 1] == x
  {
    hide Base, TipOk, Recanon, KeepHashes;
    var h := Next(p);
    var c1 := Insert(c, x, prev, root, p);
    InsertKeeps(c, o, x, prev, root, p);
    var c2 := c1.(tip := x, tipH := h);
    RaiseTipKeeps(c1, o, x, h);
    RecanonKeeps(c2, o, x, h);
    RecanonFrame(c2, x, h);
    var c3 := Recanon(c2, x, h);
    PrunedHeld(c3, o);
    assert forall k: Height, y :: Held(c3, k, y) <==> Held(c1, k, y);
  }

  lemma PrunedHeld(c: Chain, o: Options)
    requires Base(c, o)
    ensures forall k: Height, y :: Held(Prune(c, o), k, y) <==> Held(c, k, y) && !Dropped(o, k, c.tipH)
    ensures forall k: Height, y :: Held(Prune(c, o), k, y) ==> EntryAt(Prune(c, o), k, y) == EntryAt(c, k, y)
  {
    PruneHeld(c, o);
    hide Base, Indexed, Prune;
  }

  // ------------------------------------------------------- the canonical map in fields

  /** After any sound run: a canonical header that is held, records a parent, and whose
      parent is known one below, in the window, has that parent canonical below it. */
  lemma CanonClosedInFields(env: Env, es: seq<Event>, h: Height)
    requires SoundRun(Start(env), env, es) && h > 0
    ensures var c := Run(Start(env), env, es).chain;
            h in c.canon && h in c.at && c.canon[h] in c.at[h] ==>
              var prev := c.at[h][c.canon[h]].prev;
              prev != ZERO_HASH && prev in c.byHash && c.byHash[prev] == h - 1 && !Dropped(env.opt, h - 1, c.tipH) ==>
                h - 1 in c.canon && c.canon[h - 1] == prev
  {
    InitValid(env.opt);
    RunValid(Start(env), env, es);
    var c := Run(Start(env), env, es).chain;
    if h in c.canon {
      assert ClosedAt(c, Cutoff(c, env.opt), h);
    }
  }

  /** And the tip, once moved, is canonical at its height, which nothing held passes. */
  lemma TipOnTop(env: Env, es: seq<Event>)
    requires SoundRun(Start(env), env, es)
    ensures var c := Run(Start(env), env, es).chain;
            && (c.tip != env.opt.anchorHash ==> c.tipH in c.canon && c.canon[c.tipH] == c.tip)
            && (forall k: Height, y :: Held(c, k, y) ==> k <= c.tipH)
  {
    InitValid(env.opt);
    RunValid(Start(env), env, es);
  }

  // ------------------------------------------------------------------ what is history

  /** History reaches up to the startup anchor, or to just below the window if that is
      higher. */
  predicate HistoryExact(c: Chain, o: Options)
  {
    c.historyTop == if o.window > 0 && c.tipH > o.window && c.tipH - o.window - 1 > o.anchorHeight
                    then c.tipH - o.window - 1 else o.anchorHeight
  }

  lemma StepHistoryExact(v: View, env: Env, e: Event)
    requires Valid(v.chain, env.opt) && SoundEvent(v, env, e) && HistoryExact(v.chain, env.opt)
    ensures HistoryExact(Step(v, env, e).chain, env.opt)
  {
    if e.Header? && Accepted(env, e.raw) {
      var c, x, prev := v.chain, env.digest(e.raw), HeaderWork.PrevOf(e.raw);
      hide Accepted, Valid;
      if x in c.byHash {
        ObserveKnown(c, env.opt, x, prev, HeaderWork.RootOf(e.raw), e.answer);
      } else if Attaches(c, x, prev, e.answer) {
        ObserveAttached(c, env.opt, x, prev, HeaderWork.RootOf(e.raw), e.answer);
      }
    }
  }

  lemma {:induction false} RunHistoryExact(v: View, env: Env, es: seq<Event>)
    requires Valid(v.chain, env.opt) && SoundRun(v, env, es) && HistoryExact(v.chain, env.opt)
    ensures HistoryExact(Run(v, env, es).chain, env.opt)
    decreases es
  {
    hide Valid, HistoryExact, Step, SoundEvent;
    if es == [] {
    } else {
      StepValid(v, env, es[0]);
      StepHistoryExact(v, env, es[0]);
      RunHistoryExact(Step(v, env, es[0]), env, es[1..]);
    }
  }

  /** A root the anchor supplied for height h is history, not a gap in the lane. */
  predicate IsHistory(c: Chain, o: Options, h: Height)
  {
    h <= o.anchorHeight || Dropped(o, h, c.tipH)
  }

  function Once(b: bool): nat { if b then 1 else 0 }

  /** After any sound run, a root query that the store answers books lane exactly for a
      canonical header it holds from the lane; otherwise the anchor supplied the root, and
      it books history exactly up to the startup anchor or below the window, and fallback
      above. */
  lemma BookingExact(env: Env, es: seq<Event>, h: Height)
    requires SoundRun(Start(env), env, es)
    ensures var v := Run(Start(env), env, es);
            var c := v.chain;
            var held := h in c.canon && h in c.at && c.canon[h] in c.at[h];
            var lane := held && !c.at[h][c.canon[h]].viaAnchor;
            var anchored := (held && !lane) || (!held && h in v.cache);
            && AskStep(v, h) == v.(lane := v.lane + Once(lane),
                                   history := v.history + Once(anchored && IsHistory(c, env.opt, h)),
                                   fallback := v.fallback + Once(anchored && !IsHistory(c, env.opt, h)))
            && AskAnswer(v, h) == if held then Some(c.at[h][c.canon[h]].root)
                                  else if h in v.cache then Some(v.cache[h]) else None
  {
    InitValid(env.opt);
    RunHistoryExact(Start(env), env, es);
  }

  /** A root fetched from the fallback books the same way, and is answered from the cache
      from then on; a height the fallback does not answer books a miss. */
  lemma FetchExact(env: Env, es: seq<Event>, h: Height)
    requires SoundRun(Start(env), env, es)
    ensures var v := Run(Start(env), env, es);
            var v' := FetchStep(v, h, env.fallback(h));
            if env.fallback(h).None? then v' == v.(misses := v.misses + 1)
            else
              && h in v'.cache && v'.cache[h] == env.fallback(h).value && v'.chain == v.chain
              && v'.lane == v.lane && v'.misses == v.misses
              && v'.history == v.history + Once(IsHistory(v.chain, env.opt, h))
              && v'.fallback == v.fallback + Once(!IsHistory(v.chain, env.opt, h))
  {
    InitValid(env.opt);
    RunHistoryExact(Start(env), env, es);
  }

  // ----------------------------------------------------------- one delivery run alone

  /** The interleaved store, run through one delivery with nothing between its sections,
      does what Observe does: whether the header is known, its parent is known, the Lookup
      finds the parent, or it does not. */
  lemma AloneIsObserve(w: HeaderRace.World, o: Options, t: HeaderRace.Truth, id: nat, hdr: HeaderRace.Header, root: Hash)
    requires id !in w.threads && HeaderRace.Honest(t, hdr) && HeaderRace.PassesWork(o, hdr)
    requires hdr.prev in w.chain.byHash ==> w.chain.byHash[hdr.prev] == t(hdr.prev)
    ensures var w1 := HeaderRace.Apply(w, o, t, HeaderRace.Arrive(id, hdr));
            if hdr.hash in w.chain.byHash then
              w1.chain == Observe(w.chain, o, hdr.hash, hdr.prev, hdr.root, None)
            else if hdr.prev in w.chain.byHash then
              && HeaderRace.Enabled(w1, t, HeaderRace.Attaching(id))
              && HeaderRace.Apply(w1, o, t, HeaderRace.Attaching(id)).chain ==
                 Observe(w.chain, o, hdr.hash, hdr.prev, hdr.root, None)
            else
              && HeaderRace.Enabled(w1, t, HeaderRace.Orphan(id))
              && HeaderRace.Apply(w1, o, t, HeaderRace.Orphan(id)).chain ==
                 Observe(w.chain, o, hdr.hash, hdr.prev, hdr.root, None)
              && HeaderRace.Enabled(w1, t, HeaderRace.Resolve(id, root))
              && var w2 := HeaderRace.Apply(w1, o, t, HeaderRace.Resolve(id, root));
                 && HeaderRace.Enabled(w2, t, HeaderRace.Attaching(id))
                 && HeaderRace.Apply(w2, o, t, HeaderRace.Attaching(id)).chain ==
                    Observe(w.chain, o, hdr.hash, hdr.prev, hdr.root, Some((t(hdr.prev), root)))
  {
    hide Attach, HeaderRace.PassesWork;
  }
}
