/** The Store of headers/chain.go with its fields updated in place. */
module HeaderStore {
  import opened Bytes
  import opened HeaderChain
  import opened HeaderRuns
  import HeaderChainProofs
  import HeaderWork

  datatype Observation = Observation(
    hash: Hash, height: Height, root: Hash,
    chained: bool, reanchor: bool, tip: bool, replaced: bool)

  datatype ObserveError = NoError | HeaderSize | ProofOfWork

  class Store {
    const env: Env

    var byHash: map<Hash, Height>
    var at: map<Height, map<Hash, Entry>>
    var canon: map<Height, Hash>
    var tip: Hash
    var tipH: Height
    var lowest: Height
    var historyTop: Height
    var fallbackRoots: map<Height, Hash>
    var fromLane: nat
    var fromHistory: nat
    var fromFallback: nat
    var misses: nat
    var warmTarget: nat
    var warmLoaded: nat
    var warmFailed: nat
    var warmDone: bool

    ghost function State(): Chain
      reads this
    {
      Chain(byHash, at, canon, tip, tipH, lowest, historyTop)
    }

    ghost function Abstract(): View
      reads this
    {
      View(State(), fallbackRoots, fromLane, fromHistory, fromFallback, misses)
    }

    constructor (env: Env)
      ensures this.env == env && Abstract() == Start(env)
    {
      this.env := env;
      byHash := map[env.opt.anchorHash := env.opt.anchorHeight];
      at, canon := map[], map[];
      tip, tipH := env.opt.anchorHash, env.opt.anchorHeight;
      lowest, historyTop := env.opt.anchorHeight, env.opt.anchorHeight;
      fallbackRoots := map[];
      fromLane, fromHistory, fromFallback, misses := 0, 0, 0, 0;
      warmTarget, warmLoaded, warmFailed, warmDone := 0, 0, 0, false;
    }

    method PutLocked(h: Height, x: Hash, e: Entry)
      modifies this`at, this`lowest
      ensures State() == Put(old(State()), h, x, e)
    {
      var m: map<Hash, Entry> := map[];
      if h in at {
        m := at[h];
      }
      at := at[h := WithEntry(m, x, e)];
      if h < lowest {
        lowest := h;
      }
    }

    method RecanonLocked(hash: Hash, height: Height)
      modifies this`canon
      ensures State() == Recanon(old(State()), hash, height)
    {
      var x, h := hash, height;
      while true
        invariant byHash == old(byHash) && at == old(at)
        invariant Recanon(State(), x, h) == Recanon(old(State()), hash, height)
        decreases h
      {
        if h in canon && canon[h] == x {
          return;
        }
        canon := canon[h := x];
        if h !in at {
          return;
        }
        var m := at[h];
        if x !in m || m[x].prev == ZERO_HASH || h == 0 {
          return;
        }
        var prev := m[x].prev;
        if prev !in byHash || byHash[prev] != h - 1 {
          return;
        }
        x, h := prev, byHash[prev];
      }
    }

    /** delete(s.byHash, hash) for every hash held at one height. */
    method ForgetRow(row: map<Hash, Entry>)
      modifies this`byHash
      ensures byHash == map x | x in old(byHash) && x !in row :: old(byHash)[x]
    {
      var left := row.Keys;
      while left != {}
        invariant left <= row.Keys
        invariant byHash == map x | x in old(byHash) && (x !in row || x in left) :: old(byHash)[x]
        decreases left
      {
        var x :| x in left;
        byHash := byHash - {x};
        left := left - {x};
      }
    }

    /** One turn of the pruning loop. */
    method DropHeight(h: Height)
      modifies this`byHash, this`at, this`canon
      ensures byHash == map x | x in old(byHash) && x !in Row(old(at), h) :: old(byHash)[x]
      ensures at == old(at) - {h} && canon == old(canon) - {h}
    {
      ForgetRow(Row(at, h));
      at := at - {h};
      canon := canon - {h};
    }

    /** The pruning loop: every height in [lowest, cutoff) goes. */
    method DropBelow(cutoff: Height)
      modifies this`byHash, this`at, this`canon
      ensures byHash == KeepHashes(old(byHash), old(at), lowest, cutoff)
      ensures at == KeepHeights(old(at), lowest, cutoff)
      ensures canon == KeepHeights(old(canon), lowest, cutoff)
    {
      var h: int := lowest;
      KeepAll(byHash, at, lowest, h);
      KeepAllHeights(at, lowest, h);
      KeepAllHeights(canon, lowest, h);
      while h < cutoff
        invariant lowest <= h && (h <= cutoff || h == lowest)
        invariant byHash == KeepHashes(old(byHash), old(at), lowest, h)
        invariant at == KeepHeights(old(at), lowest, h)
        invariant canon == KeepHeights(old(canon), lowest, h)
      {
        KeepHashesOneMore(old(byHash), old(at), lowest, h);
        KeepHeightsOneMore(old(at), lowest, h);
        KeepHeightsOneMore(old(canon), lowest, h);
        assert Row(at, h) == Row(old(at), h);
        DropHeight(h);
        h := h + 1;
      }
      if cutoff < lowest {
        KeepAll(old(byHash), old(at), lowest, cutoff);
        KeepAllHeights(old(at), lowest, cutoff);
        KeepAllHeights(old(canon), lowest, cutoff);
      }
    }

    method PruneLocked()
      modifies this`byHash, this`at, this`canon, this`lowest, this`historyTop
      ensures State() == Prune(old(State()), env.opt)
    {
      if env.opt.window == 0 || tipH < env.opt.window {
        KeepAll(byHash, at, lowest, 0);
        KeepAllHeights(at, lowest, 0);
        KeepAllHeights(canon, lowest, 0);
        return;
      }
      var cutoff := tipH - env.opt.window;
      DropBelow(cutoff);
      if cutoff > lowest {
        lowest := cutoff;
      }
      if cutoff > 0 && cutoff - 1 > historyTop {
        historyTop := cutoff - 1;
      }
    }

    /** Section one for a hash already known. */
    method RedeliverLocked(hash: Hash)
      requires hash in byHash
      modifies this`at
      ensures State() == Redeliver(old(State()), hash)
    {
      var h := byHash[hash];
      if h in at && hash in at[h] && at[h][hash].viaAnchor {
        at := at[h := WithEntry(at[h], hash, at[h][hash].(viaAnchor := false))];
      }
    }

    /** Section two: the re-check under the lock and the re-anchored parent. */
    method ReanchorLocked(prev: Hash, h: Height, root: Hash)
      modifies this`byHash, this`at, this`lowest
      ensures State() == Reanchor(old(State()), prev, h, root)
    {
      if prev !in byHash {
        byHash := byHash[prev := h];
        PutLocked(h, prev, Entry(root, ZERO_HASH, true));
      }
    }

    /** Section three: record, and extend or reorganise. */
    method AttachLocked(hash: Hash, prev: Hash, root: Hash, parentH: Height) returns (moved: bool)
      modifies this`byHash, this`at, this`canon, this`tip, this`tipH, this`lowest, this`historyTop
      ensures State() == Attach(old(State()), env.opt, hash, prev, root, parentH)
      ensures moved <==> MovesTip(old(State()), prev, parentH)
      ensures if moved then tip == hash && tipH == Next(parentH) else tip == old(tip) && tipH == old(tipH)
    {
      var height := Next(parentH);
      byHash := byHash[hash := height];
      PutLocked(height, hash, Entry(root, prev, false));
      moved := prev == tip || height > tipH;
      if moved {
        tip, tipH := hash, height;
        ghost var c := State();
        RecanonLocked(hash, height);
        HeaderChainProofs.RecanonFrame(c, hash, height);
        PruneLocked();
      }
    }

    /** Observe with the Lookup's answer as an argument. */
    method Observe(raw: Bytes, answer: Answer) returns (obs: Observation, err: ObserveError)
      modifies this`byHash, this`at, this`canon, this`tip, this`tipH, this`lowest, this`historyTop
      ensures State() == HeaderStep(old(State()), env, raw, answer)
      ensures err == NoError <==> Accepted(env, raw)
      ensures err == HeaderSize <==> |raw| != HeaderWork.HEADER_SIZE
      ensures err == NoError ==>
                var x, prev := env.digest(raw), HeaderWork.PrevOf(raw);
                var known := x in old(byHash);
                var attaches := Attaches(old(State()), x, prev, answer);
                && obs.hash == x && obs.root == HeaderWork.RootOf(raw)
                && (obs.chained <==> known || attaches)
                && (obs.reanchor <==> attaches && prev !in old(byHash))
                && (obs.tip ==> obs.height == tipH && tip == x)
                && (!obs.tip ==> tipH == old(tipH) && tip == old(tip))
                && (obs.replaced <==> attaches && obs.height in old(canon))
                && (known ==> obs.height == old(byHash)[x])
                && (attaches ==> obs.height == Next(ParentHeight(old(State()), prev, answer)))
    {
      obs := Observation(ZERO_HASH, 0, ZERO_HASH, false, false, false, false);
      if |raw| != HeaderWork.HEADER_SIZE {
        return obs, HeaderSize;
      }
      var hash, prev, root := env.digest(raw), HeaderWork.PrevOf(raw), HeaderWork.RootOf(raw);
      obs := obs.(hash := hash, root := root);
      var ok := HeaderWork.CheckWork(hash, HeaderWork.BitsOf(raw), env.opt.minBits);
      if !ok {
        return obs, ProofOfWork;
      }
      err := NoError;
      if hash in byHash {
        obs := obs.(height := byHash[hash], chained := true);
        RedeliverLocked(hash);
        return;
      }
      var parentH: Height := 0;
      var known := prev in byHash;
      if known {
        parentH := byHash[prev];
      } else if answer.Some? {
        parentH, known := answer.value.0, true;
        obs := obs.(reanchor := true);
        ReanchorLocked(prev, parentH, answer.value.1);
      }
      if !known {
        return;
      }
      obs := obs.(height := Next(parentH), chained := true, replaced := Next(parentH) in canon);
      var moved := AttachLocked(hash, prev, root, parentH);
      obs := obs.(tip := moved);
    }

    method BookAnchoredLocked(height: Height)
      modifies this`fromHistory, this`fromFallback
      ensures Abstract() == BookAnchored(old(Abstract()), height)
    {
      if height <= historyTop {
        fromHistory := fromHistory + 1;
      } else {
        fromFallback := fromFallback + 1;
      }
    }

    /** RootAt from the fallback's answer on. */
    method BookFetched(height: Height, root: Hash)
      requires CacheTrue(Abstract(), env.fallback) && env.fallback(height) == Some(root)
      modifies this`fallbackRoots, this`fromHistory, this`fromFallback
      ensures CacheTrue(Abstract(), env.fallback)
      ensures Abstract() == FetchStep(old(Abstract()), height, Some(root))
    {
      if |fallbackRoots| >= FALLBACK_CAP {
        fallbackRoots := map[];
      }
      fallbackRoots := fallbackRoots[height := root];
      BookAnchoredLocked(height);
    }

    /** RootAt run without interference: the answer is the uncached one, one
        source is booked, and only the cache and the counters change. */
    method RootAt(height: Height) returns (r: Option<Hash>, failed: bool)
      requires CacheTrue(Abstract(), env.fallback)
      modifies this`fallbackRoots, this`fromLane, this`fromHistory, this`fromFallback, this`misses
      ensures CacheTrue(Abstract(), env.fallback)
      ensures r == Uncached(old(Abstract()), env.fallback, height)
      ensures failed <==> r.None? && !env.absent(height)
      ensures Abstract() == if AskAnswer(old(Abstract()), height).Some?
                            then AskStep(old(Abstract()), height)
                            else FetchStep(old(Abstract()), height, env.fallback(height))
      ensures Booked(Abstract()) == Booked(old(Abstract())) + 1
    {
      if height in canon && height in at && canon[height] in at[height] {
        var e := at[height][canon[height]];
        if e.viaAnchor {
          BookAnchoredLocked(height);
        } else {
          fromLane := fromLane + 1;
        }
        return Some(e.root), false;
      }
      if height in fallbackRoots {
        BookAnchoredLocked(height);
        return Some(fallbackRoots[height]), false;
      }
      r, failed := env.fallback(height), false;
      if r.None? {
        misses := misses + 1;
        failed := !env.absent(height);
        return;
      }
      BookFetched(height, r.value);
    }

    /** HeaderForHeight: a lane header is known; any other name is the
        anchor's, and is never reported known. One source is booked. The names
        argument is the fallback seen as a HeaderSource, None when it is not. */
    method HeaderForHeight(height: Height, names: Option<Height -> Option<(Hash, Hash)>>)
      returns (r: Option<(Hash, Hash)>, known: bool)
      modifies this`fromLane, this`fromHistory, this`fromFallback, this`misses
      ensures var e := CanonicalEntry(State(), height);
              && (e.Some? ==> r == Some((canon[height], e.value.root)))
              && (e.None? ==> r == if names.None? then None else names.value(height))
              && (known <==> e.Some? && !e.value.viaAnchor)
              && (known <==> fromLane > old(fromLane))
              && (r.None? <==> misses > old(misses))
              && (height <= historyTop ==> fromFallback == old(fromFallback))
      ensures Booked(Abstract()) == Booked(old(Abstract())) + 1
    {
      if height in canon && height in at && canon[height] in at[height] {
        var e := at[height][canon[height]];
        if e.viaAnchor {
          BookAnchoredLocked(height);
          return Some((canon[height], e.root)), false;
        }
        fromLane := fromLane + 1;
        return Some((canon[height], e.root)), true;
      }
      if names.None? || names.value(height).None? {
        misses := misses + 1;
        return None, false;
      }
      BookAnchoredLocked(height);
      return names.value(height), false;
    }

    /** One warm-up load; the context may have ended before it. */
    method WarmOne(h: Height, ended: bool)
      modifies this`fallbackRoots, this`warmLoaded, this`warmFailed
      ensures Abstract() == if ended then old(Abstract()) else WarmStep(old(Abstract()), h, env.fallback(h))
      ensures if ended || env.fallback(h).None?
              then warmFailed == old(warmFailed) + 1 && warmLoaded == old(warmLoaded)
              else warmFailed == old(warmFailed) && warmLoaded == old(warmLoaded) + 1
    {
      if ended {
        warmFailed := warmFailed + 1;
        return;
      }
      var r := env.fallback(h);
      if r.None? {
        warmFailed := warmFailed + 1;
        return;
      }
      if |fallbackRoots| < FALLBACK_CAP {
        fallbackRoots := fallbackRoots[h := r.value];
      }
      warmLoaded := warmLoaded + 1;
    }

    /** The warm-up, newest height first. The feed hands out at most fed heights
        before the context ends, and live says which of those find it running: with
        several workers they need not be the first. */
    method Warm(depth: Height, configured: bool, fed: nat, live: Height -> bool)
      modifies this`fallbackRoots, this`warmTarget, this`warmLoaded, this`warmFailed, this`warmDone
      ensures warmDone
      ensures !configured || depth == 0 ==> Abstract() == old(Abstract())
      ensures configured && depth > 0 ==>
                var top := env.opt.anchorHeight;
                var count := top - WarmLow(top, depth) + 1;
                && warmTarget == count
                && warmLoaded + warmFailed == old(warmLoaded) + old(warmFailed) + Least(fed, count)
                && Abstract() == Run(old(Abstract()), env, WarmLoads(top, Least(fed, count), live))
    {
      hide WarmStep, WarmLow, Run, WarmLoads;
      warmDone := true;
      if !configured || depth == 0 {
        return;
      }
      var top := env.opt.anchorHeight;
      var low := WarmLow(top, depth);
      warmTarget := top - low + 1;
      WarmNone(Abstract(), env, top, live);
      var h: Height := top;
      var n := 0;
      while n < fed
        invariant n <= top - low && n <= fed && h == top - n
        invariant warmTarget == top - low + 1 && warmDone
        invariant warmLoaded + warmFailed == old(warmLoaded) + old(warmFailed) + n
        invariant Abstract() == Run(old(Abstract()), env, WarmLoads(top, n, live))
        decreases fed - n
      {
        WarmOne(h, !live(h));
        WarmLoadsOneMore(old(Abstract()), env, top, n, live);
        n := n + 1;
        if h == low {
          break;
        }
        h := h - 1;
      }
      assert n == Least(fed, top - low + 1);
    }

    /** The header a held hash names. In every valid state only the startup
        anchor is known to byHash and still reported absent. */
    method HeaderByHash(x: Hash) returns (r: Option<(Height, Entry)>)
      requires Valid(State(), env.opt)
      ensures r.Some? ==> Held(State(), r.value.0, x) && EntryAt(State(), r.value.0, x) == r.value.1
      ensures r.None? <==> x !in byHash || x == env.opt.anchorHash
      ensures r.None? <==> forall h :: !Held(State(), h, x)
    {
      if x !in byHash {
        return None;
      }
      var h := byHash[x];
      if h !in at || x !in at[h] {
        return None;
      }
      assert Held(State(), h, x);
      return Some((h, at[h][x]));
    }
  }

  /** The tracker over a store: it holds a height and no roots. */
  class Tracker {
    const src: Store
    var height: Height

    constructor (src: Store)
      ensures this.src == src && height == 0
    {
      this.src := src;
      height := 0;
    }

    method Learn(h: Height)
      modifies this`height
      ensures height >= h && height >= old(height) && (height == h || height == old(height))
    {
      if h > height {
        height := h;
      }
    }

    /** A root is valid for a height exactly when it is the root the canonical chain
        commits to there, or the fallback's where the chain holds none; whatever was
        asked and answered before. */
    method IsValidRootForHeight(root: Option<Hash>, h: Height) returns (valid: bool, failed: bool)
      requires CacheTrue(src.Abstract(), src.env.fallback)
      modifies src`fallbackRoots, src`fromLane, src`fromHistory, src`fromFallback, src`misses
      ensures CacheTrue(src.Abstract(), src.env.fallback)
      ensures valid <==> root.Some? && Uncached(old(src.Abstract()), src.env.fallback, h) == root
      ensures failed <==> root.Some? && Uncached(old(src.Abstract()), src.env.fallback, h).None? && !src.env.absent(h)
    {
      if root.None? {
        return false, false;
      }
      var got;
      got, failed := src.RootAt(h);
      if failed || got.None? {
        return false, failed;
      }
      return got == root, false;
    }
  }

  function Least(a: nat, b: nat): nat { if a < b then a else b }

  /** The lowest height the warm-up loads. top + 1 is computed on 32 bits. */
  function WarmLow(top: Height, depth: Height): (low: Height)
    ensures low <= top || depth == 0
  {
    var d := if depth > FALLBACK_CAP / 2 then FALLBACK_CAP / 2 else depth;
    if Next(top) > d then Next(top) - d else 0
  }

  /** The warm-up sets out to load depth heights, at most half the cache and at most
      the chain, exactly when the anchor is below the last 32-bit height; at that
      height it sets out to load all of them. */
  lemma WarmRange(top: Height, depth: Height)
    requires depth > 0
    ensures top - WarmLow(top, depth) + 1 == Least(Least(depth, FALLBACK_CAP / 2), top + 1) <==> top != MAX_HEIGHT
    ensures top == MAX_HEIGHT ==> WarmLow(top, depth) == 0
  {
  }

  /** The loads of the n heights down from top that are live. */
  function WarmLoads(top: Height, n: nat, live: Height -> bool): seq<Event>
    requires n <= top + 1
  {
    if n == 0 then []
    else
      var h := top - (n - 1);
      WarmLoads(top, n - 1, live) + (if live(h) then [Event.Warm(h)] else [])
  }

  lemma {:induction false} RunAppend(v: View, env: Env, es: seq<Event>, e: Event)
    ensures Run(v, env, es + [e]) == Step(Run(v, env, es), env, e)
    decreases es
  {
    if es == [] {
      assert es + [e] == [e];
      assert Run(v, env, [e]) == Run(Step(v, env, e), env, []);
    } else {
      assert (es + [e])[1..] == es[1..] + [e];
      RunAppend(Step(v, env, es[0]), env, es[1..], e);
    }
  }

  lemma WarmLoadsOneMore(v: View, env: Env, top: Height, n: nat, live: Height -> bool)
    requires n <= top
    ensures var v' := Run(v, env, WarmLoads(top, n, live));
            Run(v, env, WarmLoads(top, n + 1, live)) ==
            if live(top - n) then WarmStep(v', top - n, env.fallback(top - n)) else v'
  {
    if live(top - n) {
      RunAppend(v, env, WarmLoads(top, n, live), Event.Warm(top - n));
    } else {
      assert WarmLoads(top, n + 1, live) == WarmLoads(top, n, live);
    }
  }

  /** v' is v with every live height of the n from top down that the fallback answers
      put in its cache; nothing else is lost or booked. */
  ghost predicate Filled(v: View, v': View, env: Env, top: Height, n: nat, live: Height -> bool)
  {
    && v' == v.(cache := v'.cache) && |v'.cache| <= |v.cache| + n && CacheTrue(v', env.fallback)
    && (forall h: Height :: h in v'.cache <==> h in v.cache || (top - n < h <= top && live(h) && env.fallback(h).Some?))
  }

  lemma WarmNone(v: View, env: Env, top: Height, live: Height -> bool)
    ensures Run(v, env, WarmLoads(top, 0, live)) == v
  {
    assert Run(v, env, []) == v;
  }

  lemma FilledNone(v: View, env: Env, top: Height, live: Height -> bool)
    requires CacheTrue(v, env.fallback)
    ensures Filled(v, Run(v, env, WarmLoads(top, 0, live)), env, top, 0, live)
  {
    hide CacheTrue, Run, WarmLoads;
    WarmNone(v, env, top, live);
  }

  lemma FilledOneMore(v: View, v': View, env: Env, top: Height, n: nat, live: Height -> bool)
    requires Filled(v, v', env, top, n, live) && n <= top && |v.cache| + n < FALLBACK_CAP
    ensures var v'' := if live(top - n) then WarmStep(v', top - n, env.fallback(top - n)) else v';
            Filled(v, v'', env, top, n + 1, live)
  {
    var v'' := WarmStep(v', top - n, env.fallback(top - n));
    assert |v''.cache| <= |v'.cache| + 1;
  }

  /** With room for them, n loads put every live height the fallback answers in the
      cache, lose nothing, and book nothing. */
  lemma {:induction false} WarmFills(v: View, env: Env, top: Height, n: nat, live: Height -> bool)
    requires n <= top + 1 && |v.cache| + n <= FALLBACK_CAP && CacheTrue(v, env.fallback)
    ensures Filled(v, Run(v, env, WarmLoads(top, n, live)), env, top, n, live)
  {
    hide Filled, Run, WarmStep, WarmLoads, CacheTrue;
    if n == 0 {
      FilledNone(v, env, top, live);
    } else {
      WarmFills(v, env, top, n - 1, live);
      WarmLoadsOneMore(v, env, top, n - 1, live);
      FilledOneMore(v, Run(v, env, WarmLoads(top, n - 1, live)), env, top, n - 1, live);
    }
  }

  /** After a warm-up of a new store, every height it reached alive that the fallback
      answers is answered at once, with the fallback's root, and as history. */
  lemma WarmedAtOnce(env: Env, depth: Height, n: nat, live: Height -> bool, h: Height)
    requires depth > 0 && env.opt.anchorHeight != MAX_HEIGHT
    requires n <= env.opt.anchorHeight - WarmLow(env.opt.anchorHeight, depth) + 1
    requires env.opt.anchorHeight - n < h <= env.opt.anchorHeight && live(h) && env.fallback(h).Some?
    ensures var v := Run(Start(env), env, WarmLoads(env.opt.anchorHeight, n, live));
            && AskAnswer(v, h) == env.fallback(h)
            && AskStep(v, h) == v.(history := v.history + 1)
  {
    WarmRange(env.opt.anchorHeight, depth);
    WarmFills(Start(env), env, env.opt.anchorHeight, n, live);
  }

  lemma KeepAll(byHash: map<Hash, Height>, at: map<Height, map<Hash, Entry>>, lo: Height, hi: int)
    ensures hi <= lo ==> KeepHashes(byHash, at, lo, hi) == byHash
  {
  }

  lemma KeepAllHeights<V>(m: map<Height, V>, lo: Height, hi: int)
    ensures hi <= lo ==> KeepHeights(m, lo, hi) == m
  {
  }

  lemma KeepHeightsOneMore<V>(m: map<Height, V>, lo: Height, h: Height)
    requires lo <= h
    ensures KeepHeights(m, lo, h) - {h} == KeepHeights(m, lo, h + 1)
  {
  }

  lemma KeepHashesOneMore(byHash: map<Hash, Height>, at: map<Height, map<Hash, Entry>>, lo: Height, h: Height)
    requires lo <= h
    ensures var before := KeepHashes(byHash, at, lo, h);
            (map x | x in before && x !in Row(at, h) :: before[x]) == KeepHashes(byHash, at, lo, h + 1)
  {
    forall x ensures DroppedIn(at, lo, h + 1, x) <==> DroppedIn(at, lo, h, x) || x in Row(at, h) {
      if x in Row(at, h) {
        assert h in at && x in at[h];
      }
    }
  }
}
