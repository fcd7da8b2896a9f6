/** One verification's state and its walks (pkg/spv/check.go, pkg/spv/spv.go). */
module SpvGraph {
  import opened Bytes
  import opened Sums
  import opened Spv

  datatype CheckError =
    | Nil
    | InvalidPath      // a path proves a root the chain does not commit to
    | PathFailed       // the path does not compute, or the tracker failed
    | SourceMismatch
    | Structural
    | ScriptFailed
    | TipFailed        // the tracker could not tell its height

  /** addSats: a running total that never passes 21 million coins, so that the
      uint64 sum never wraps. */
  function AddSats(total: nat, v: nat): Option<nat>
  {
    if v > MAX_SATOSHIS || total > MAX_SATOSHIS - v then None else Some(total + v)
  }

  /** The total of s, or None when a partial sum leaves the range. */
  method Total(s: seq<nat>) returns (r: Option<nat>)
    ensures r == if Sum(s) <= MAX_SATOSHIS then Some(Sum(s)) else None
  {
    var total, k := 0, 0;
    while k < |s|
      invariant k <= |s| && total == Sum(s[..k]) <= MAX_SATOSHIS
    {
      SumNext(s, k);
      SumPrefix(s, k + 1);
      var t := AddSats(total, s[k]);
      if t.None? {
        return None;
      }
      total, k := t.value, k + 1;
    }
    assert s[..k] == s;
    return Some(total);
  }

  method AnyP2sh(os: seq<Output>) returns (r: bool)
    ensures r <==> exists i :: 0 <= i < |os| && P2sh(os[i])
  {
    for i := 0 to |os|
      invariant forall j :: 0 <= j < i ==> !P2sh(os[j])
    {
      if P2sh(os[i]) {
        return true;
      }
    }
    return false;
  }

  /** The duplicate-input check with its map of outpoints spent. */
  method CheckOutpoints(tx: Tx) returns (ok: bool)
    ensures ok <==> OutpointsOk(tx)
  {
    var spent: set<(Hash, nat)> := {};
    for i := 0 to |tx.inputs|
      invariant forall j :: 0 <= j < i ==> tx.inputs[j].sourceTxid.Some? && !NullOutpoint(tx.inputs[j])
      invariant forall j :: 0 <= j < i ==> (tx.inputs[j].sourceTxid.value, tx.inputs[j].vout) in spent
      invariant forall o :: o in spent ==>
                  exists j :: 0 <= j < i && tx.inputs[j].sourceTxid == Some(o.0) && tx.inputs[j].vout == o.1
      invariant forall j, k :: 0 <= j < k < i ==>
                  tx.inputs[j].sourceTxid != tx.inputs[k].sourceTxid || tx.inputs[j].vout != tx.inputs[k].vout
    {
      var input := tx.inputs[i];
      if input.sourceTxid.None? || NullOutpoint(input) {
        return false;
      }
      var o := (input.sourceTxid.value, input.vout);
      if o in spent {
        return false;
      }
      spent := spent + {o};
    }
    return true;
  }

  class Graph {
    const obj: Object
    const env: Env

    var mined: map<Hash, nat>
    var tip: Option<nat>
    var scripts: nat
    var failed: bool
    var notYet: bool

    constructor (obj: Object, env: Env)
      requires Closed(obj)
      ensures this.obj == obj && this.env == env && Valid() && !failed && !notYet && fresh(this)
    {
      this.obj, this.env := obj, env;
      mined, tip, scripts, failed, notYet := map[], None, 0, false, false;
    }

    /** Whatever is in mined was proved at its own path's height. */
    ghost predicate MinedOk()
      reads this
    {
      forall x :: x in mined ==>
        x in obj && obj[x].path.Some? && mined[x] == obj[x].path.value.height && PathProved(env, obj[x].path.value)
    }

    /** watchTracker's flags are raised only by a tracker that leaves something open. */
    ghost predicate Watched()
      reads this
    {
      failed || notYet ==> !Decisive(env)
    }

    /** Nothing that failed can be laid at the tracker's door. */
    predicate Clear()
      reads this
    {
      !failed && !notYet
    }

    ghost predicate Valid()
      reads this
    {
      Closed(obj) && MinedOk() && Watched() && (tip.Some? ==> tip == env.tip)
    }

    /** The tracker, watched. */
    method IsValidRoot(root: Hash, height: nat) returns (r: RootAnswer)
      requires Valid()
      modifies this`failed, this`notYet
      ensures Valid() && r == env.roots(root, height)
      ensures Clear() <==> old(Clear()) && Resolved(env, root, height)
    {
      r := env.roots(root, height);
      assert Decisive(env) ==> Resolved(env, root, height);
      if r == RootError {
        failed := true;
      } else if r == RootInvalid && env.tip.Some? && height > env.tip.value {
        notYet := true;
      }
    }

    method ChainTip() returns (h: Option<nat>)
      requires Valid()
      modifies this`tip, this`failed
      ensures Valid() && h == tip == env.tip && (Clear() ==> old(Clear()) && h.Some?)
    {
      if tip.Some? {
        return tip;
      }
      if env.tip.None? {
        failed := true;
        return None;
      }
      tip := env.tip;
      return tip;
    }

    // ------------------------------------------------------------ the first walk

    method VerifyPath(x: Hash, path: Path) returns (err: CheckError)
      requires Valid() && x in obj && obj[x].path == Some(path)
      modifies this`failed, this`notYet, this`mined
      ensures Valid() && (err == Nil <==> PathProved(env, path))
      ensures mined == if err == Nil then old(mined)[x := path.height] else old(mined)
      ensures Clear() ==> old(Clear()) && (err != Nil ==> NeverProves(obj, env, x))
    {
      if path.root.None? {
        return PathFailed;
      }
      var a := IsValidRoot(path.root.value, path.height);
      if a == RootError {
        return PathFailed;
      }
      if a == RootInvalid {
        return InvalidPath;
      }
      mined := mined[x := path.height];
      return Nil;
    }

    /** The sources of one transaction, queued unless seen already. */
    method QueueSources(x: Hash, seen: set<Hash>, queue: seq<Hash>)
      returns (err: CheckError, seen': set<Hash>, queue': seq<Hash>)
      requires Closed(obj) && x in obj && obj[x].path.None?
      ensures err == Nil <==> LinksMatch(obj[x])
      ensures err == Nil ==> forall y :: Step(obj, x, y) ==> y in seen'
      ensures seen <= seen' && (seen' == seen ==> queue' == queue)
      ensures forall y :: y in seen' ==> y in seen || (Step(obj, x, y) && y in queue')
      ensures forall y :: y in queue ==> y in queue'
      ensures forall y :: y in queue' ==> y in queue || y in seen'
    {
      seen', queue' := seen, queue;
      var ins := obj[x].inputs;
      for i := 0 to |ins|
        invariant seen <= seen' && (seen' == seen ==> queue' == queue)
        invariant forall j :: 0 <= j < i && ins[j].linked.Some? ==> ins[j].sourceTxid == ins[j].linked && ins[j].linked.value in seen'
        invariant forall y :: y in seen' ==> y in seen || (Step(obj, x, y) && y in queue')
        invariant forall y :: y in queue ==> y in queue'
        invariant forall y :: y in queue' ==> y in queue || y in seen'
      {
        if ins[i].linked.Some? {
          var s := ins[i].linked.value;
          if ins[i].sourceTxid != Some(s) {
            return SourceMismatch, seen', queue';
          }
          if s !in seen' {
            assert Step(obj, x, s);
            seen' := seen' + {s};
            queue' := queue' + [s];
          }
        }
      }
      return Nil, seen', queue';
    }

    /** proveMined: everything reached from t is asked, and on success every path
        reached is in mined. */
    method ProveMined(t: Hash) returns (err: CheckError)
      requires Valid() && t in obj
      modifies this`failed, this`notYet, this`mined
      ensures Valid()
      ensures err == Nil <==> forall x :: Reaches(obj, t, x) ==> x in obj && Proves(obj, env, x)
      ensures Clear() ==> old(Clear()) && (err != Nil ==> Hopeless(obj, env, t))
      ensures forall x :: x in old(mined) ==> x in mined
      ensures err == Nil ==> forall x :: Reaches(obj, t, x) && x in obj && obj[x].path.Some? ==> x in mined
    {
      hide Front, Reaches, Step, Watched, LinksMatch, PathProved, NeverProves, NeverPasses, Hopeless;
      var seen, queue := {t}, [t];
      ghost var past: set<Hash> := {};
      FrontStarts(obj, t);
      while queue != []
        invariant Valid() && (Clear() ==> old(Clear()))
        invariant forall x :: x in old(mined) ==> x in mined
        invariant Front(obj, t, past, seen, queue) && seen <= obj.Keys
        invariant forall x :: x in past ==> x in obj && Proves(obj, env, x) && (obj[x].path.Some? ==> x in mined)
        decreases |obj.Keys - seen|, |queue|
      {
        var x := queue[0];
        FrontHead(obj, t, past, seen, queue);
        if obj[x].path.Some? {
          err := VerifyPath(x, obj[x].path.value);
          if err != Nil {
            if Clear() {
              HopelessPath(obj, env, t, x);
            }
            return;
          }
          FrontStops(obj, t, past, seen, queue);
          queue := queue[1..];
        } else {
          ghost var q0, s0 := queue, seen;
          err, seen, queue := QueueSources(x, seen, queue[1..]);
          if err != Nil {
            HopelessLinks(obj, env, t, x);
            return;
          }
          FrontGrows(obj, t, past, s0, q0, seen, queue);
          FewerUnseen(obj.Keys, s0, seen);
        }
        past := past + {x};
      }
      FrontEnds(obj, t, past, seen);
      err := Nil;
    }

    // ------------------------------------------------------- one transaction's checks

    /** mined knows the proof of every source of x that the object proves. */
    ghost predicate SourcesKnown(x: Hash)
      requires x in obj
      reads this
    {
      forall i :: 0 <= i < |obj[x].inputs| ==> KnownAsMined(obj[x].inputs[i].sourceTxid)
    }

    ghost predicate KnownAsMined(s: Option<Hash>)
      reads this
    {
      s.Some? && s.value in mined <==> ProofHeight(obj, s).Some?
    }

    method CheckFinal(tx: Tx) returns (err: CheckError)
      requires Valid()
      modifies this`tip, this`failed
      ensures Valid() && (err == Nil <==> Final(env, tx))
      ensures Clear() ==> old(Clear()) && (err != Nil ==> NeverFinal(env, tx))
    {
      if tx.lockTime == 0 {
        return Nil;
      }
      var nonFinal := false;
      for i := 0 to |tx.inputs|
        invariant !nonFinal && forall j :: 0 <= j < i ==> tx.inputs[j].sequence == FINAL_SEQUENCE
      {
        if tx.inputs[i].sequence != FINAL_SEQUENCE {
          nonFinal := true;
          break;
        }
      }
      if !nonFinal {
        return Nil;
      }
      if tx.lockTime >= LOCKTIME_THRESHOLD {
        return Structural;
      }
      var h := ChainTip();
      if h.None? {
        return TipFailed;
      }
      return if tx.lockTime <= h.value then Nil else Structural;
    }

    method CheckDepth(i: Input, maturity: int) returns (err: CheckError)
      requires Valid() && KnownAsMined(i.sourceTxid)
      modifies this`tip, this`failed
      ensures Valid() && (err == Nil <==> DeepEnough(obj, env, i, maturity))
      ensures Clear() ==> old(Clear()) && (err != Nil ==> NeverDeep(obj, env, i, maturity))
    {
      if i.sourceTxid.None? || i.sourceTxid.value !in mined {
        return Structural;
      }
      var h := ChainTip();
      if h.None? {
        return TipFailed;
      }
      return if h.value + 1 - mined[i.sourceTxid.value] >= maturity then Nil else Structural;
    }

    method CheckSpend(i: Input) returns (err: CheckError)
      requires Valid() && KnownAsMined(i.sourceTxid) && (i.linked.Some? ==> i.linked.value in obj)
      modifies this`tip, this`failed
      ensures Valid() && (err == Nil <==> SpendOk(obj, env, i))
      ensures Clear() ==> old(Clear()) && (err != Nil ==> NeverSpends(obj, env, i))
    {
      if SpentOutput(obj, i).None? {
        return Structural;
      }
      if i.linked.Some? && Coinbase(obj[i.linked.value]) {
        err := CheckDepth(i, COINBASE_MATURITY);
        if err != Nil {
          return;
        }
      }
      if i.linked.Some? && Confiscation(obj[i.linked.value]) {
        err := CheckDepth(i, CONFISCATION_MATURITY);
        if err != Nil {
          return;
        }
      }
      return Nil;
    }

    /** One turn of the loop over the inputs: the spend, and its value added. */
    method AddSpend(i: Input, total: nat) returns (err: CheckError, total': nat)
      requires Valid() && KnownAsMined(i.sourceTxid) && (i.linked.Some? ==> i.linked.value in obj)
      requires total <= MAX_SATOSHIS
      modifies this`tip, this`failed
      ensures Valid()
      ensures err == Nil <==> SpendOk(obj, env, i) && total + InputValue(obj, i) <= MAX_SATOSHIS
      ensures err == Nil ==> total' == total + InputValue(obj, i)
      ensures Clear() ==> old(Clear())
      ensures Clear() && err != Nil ==> NeverSpends(obj, env, i) || total + InputValue(obj, i) > MAX_SATOSHIS
    {
      hide DeepEnough, Watched, MinedOk;
      total' := total;
      err := CheckSpend(i);
      if err != Nil {
        return;
      }
      var t := AddSats(total, SpentOutput(obj, i).value.satoshis);
      if t.None? {
        return Structural, total;
      }
      total' := t.value;
    }

    /** The loop over the inputs: each spend in turn, and their total. */
    method CheckSpends(x: Hash) returns (err: CheckError, total: nat)
      requires Valid() && x in obj && SourcesKnown(x)
      modifies this`tip, this`failed
      ensures Valid()
      ensures err == Nil <==>
                && (forall i :: 0 <= i < |obj[x].inputs| ==> SpendOk(obj, env, obj[x].inputs[i]))
                && Sum(InputValues(obj, obj[x])) <= MAX_SATOSHIS
      ensures err == Nil ==> total == Sum(InputValues(obj, obj[x]))
      ensures Clear() ==> old(Clear())
      ensures Clear() && err != Nil ==> SpendsNever(obj, env, x)
    {
      hide Watched, MinedOk, SpentOutput, SpendOk, InputValue, NeverSpends;
      var ins := obj[x].inputs;
      ghost var vs := InputValues(obj, obj[x]);
      total := 0;
      for k := 0 to |ins|
        invariant Valid() && SourcesKnown(x) && (Clear() ==> old(Clear()))
        invariant forall i :: 0 <= i < k ==> SpendOk(obj, env, ins[i])
        invariant total == Sum(vs[..k]) <= MAX_SATOSHIS
      {
        assert KnownAsMined(ins[k].sourceTxid);
        SumNext(vs, k);
        SumPrefix(vs, k + 1);
        err, total := AddSpend(ins[k], total);
        if err != Nil {
          return;
        }
      }
      assert vs[..|ins|] == vs;
      err := Nil;
    }

    /** The interpreter over every input, each coin at its height. */
    method RunScripts(x: Hash) returns (err: CheckError)
      requires Valid() && x in obj && SourcesKnown(x)
      requires forall i :: 0 <= i < |obj[x].inputs| ==> SpentOutput(obj, obj[x].inputs[i]).Some?
      modifies this`scripts
      ensures Valid() && (err == Nil <==> ScriptsOk(obj, env, x))
      ensures err == Nil ==> scripts == old(scripts) + |obj[x].inputs|
    {
      var ins := obj[x].inputs;
      for k := 0 to |ins|
        invariant Valid() && scripts == old(scripts) + k
        invariant forall i :: 0 <= i < k ==> env.scripts(x, i, CoinHeight(obj, env, ins[i]))
      {
        assert KnownAsMined(ins[k].sourceTxid);
        var coin := UNMINED_HEIGHT;
        if ins[k].sourceTxid.Some? && ins[k].sourceTxid.value in mined {
          coin := mined[ins[k].sourceTxid.value];
        }
        coin := P2shCoinHeight(ins[k], SpentOutput(obj, ins[k]).value, coin);
        assert coin == CoinHeight(obj, env, ins[k]);
        scripts := scripts + 1;
        if !env.scripts(x, k, coin) {
          return ScriptFailed;
        }
      }
      return Nil;
    }

    function P2shCoinHeight(i: Input, prev: Output, coin: nat): nat
      requires i.linked.Some? ==> i.linked.value in obj
      reads this
    {
      if env.genesis == 0 || !P2sh(prev) then coin
      else if i.linked.Some? && Coinbase(obj[i.linked.value]) && i.sourceTxid.Some? && i.sourceTxid.value in mined
      then coin
      else if coin >= env.genesis then env.genesis - 1
      else coin
    }

    /** checkTx, in the source's order. */
    method CheckTx(x: Hash) returns (err: CheckError)
      requires Valid() && x in obj && SourcesKnown(x)
      modifies this`tip, this`failed, this`scripts
      ensures Valid() && (err == Nil <==> TxPasses(obj, env, x))
      ensures Clear() ==> old(Clear()) && (err != Nil ==> NeverPasses(obj, env, x))
    {
      hide DeepEnough, Watched, MinedOk, SpentOutput, P2sh, NullOutpoint, Final, ScriptsOk, OutpointsOk, SpendOk,
           NeverPasses, NeverFinal, SpendsNever;
      var tx := obj[x];
      if Coinbase(tx) || |tx.inputs| == 0 || |tx.outputs| == 0 {
        NotStaticNeverPass(obj, env, x);
        return Structural;
      }
      var outTotal := Total(OutputValues(tx));
      if outTotal.None? {
        NotStaticNeverPass(obj, env, x);
        return Structural;
      }
      var p2sh := AnyP2sh(tx.outputs);
      if p2sh {
        NotStaticNeverPass(obj, env, x);
        return Structural;
      }
      var distinct := CheckOutpoints(tx);
      if !distinct {
        NotStaticNeverPass(obj, env, x);
        return Structural;
      }
      if env.finality == Require {
        err := CheckFinal(tx);
        if err != Nil {
          if Clear() {
            NeverFinalPass(obj, env, x);
          }
          return;
        }
      }
      if Confiscation(tx) {
        NotStaticNeverPass(obj, env, x);
        return Structural;
      }
      var inTotal;
      err, inTotal := CheckSpends(x);
      if err != Nil {
        if Clear() {
          SpendsNeverPass(obj, env, x);
        }
        return;
      }
      if outTotal.value > inTotal {
        NotStaticNeverPass(obj, env, x);
        return Structural;
      }
      if env.skipScripts {
        return Nil;
      }
      SpendsExist(obj, env, x);
      err := RunScripts(x);
      if err != Nil {
        ScriptsNeverPass(obj, env, x);
      }
    }

    // ----------------------------------------------------------- the second walk

    method PushSources(x: Hash, done: set<Hash>, queue: seq<Hash>) returns (queue': seq<Hash>)
      requires Closed(obj) && x in obj && obj[x].path.None?
      ensures forall y :: Step(obj, x, y) ==> y in done || y in queue'
      ensures forall y :: y in queue ==> y in queue'
      ensures forall y :: y in queue' ==> y in queue || Step(obj, x, y)
    {
      queue' := queue;
      var ins := obj[x].inputs;
      for i := 0 to |ins|
        invariant forall j :: 0 <= j < i && ins[j].linked.Some? ==> ins[j].linked.value in done || ins[j].linked.value in queue'
        invariant forall y :: y in queue ==> y in queue'
        invariant forall y :: y in queue' ==> y in queue || Step(obj, x, y)
      {
        if ins[i].linked.Some? && ins[i].linked.value !in done {
          assert Step(obj, x, ins[i].linked.value);
          queue' := queue' + [ins[i].linked.value];
        }
      }
    }

    /** check: it succeeds exactly when everything reached from t is good. */
    method Check(t: Hash) returns (err: CheckError)
      requires Valid() && WellLinked(obj) && t in obj
      modifies this
      ensures Valid()
      ensures err == Nil <==> forall x :: Reaches(obj, t, x) ==> x in obj && Good(obj, env, x)
      ensures Clear() ==> old(Clear()) && (err != Nil ==> Hopeless(obj, env, t))
    {
      hide Reaches, Step, Watched, MinedOk, TxPasses, Proves, Hopeless;
      err := ProveMined(t);
      if err != Nil {
        return;
      }
      err := CheckUnmined(t);
    }

    /** The second walk: every unproven transaction reached is checked. */
    method CheckUnmined(t: Hash) returns (err: CheckError)
      requires Valid() && WellLinked(obj) && t in obj
      requires forall x :: Reaches(obj, t, x) && x in obj && obj[x].path.Some? ==> x in mined
      modifies this`tip, this`failed, this`scripts
      ensures Valid()
      ensures err == Nil <==> forall x :: Reaches(obj, t, x) && x in obj && obj[x].path.None? ==> TxPasses(obj, env, x)
      ensures Clear() ==> old(Clear()) && (err != Nil ==> Hopeless(obj, env, t))
    {
      hide Front, Reaches, Step, Watched, MinedOk, TxPasses, SetOf, NeverProves, NeverPasses, Hopeless;
      var done: set<Hash> := {};
      var queue := [t];
      FrontBegins(obj, t);
      while queue != []
        invariant Valid() && (Clear() ==> old(Clear()))
        invariant Front(obj, t, done, done + SetOf(queue), queue) && done <= obj.Keys
        invariant forall x :: x in done && obj[x].path.None? ==> TxPasses(obj, env, x)
        decreases |obj.Keys - done|, |queue|
      {
        var x := queue[0];
        FrontHead(obj, t, done, done + SetOf(queue), queue);
        if x in done {
          FrontSkips(obj, t, done, queue);
          queue := queue[1..];
        } else {
          FewerUnseen(obj.Keys, done, done + {x});
          if x in mined {
            MinedProven(x);
            FrontPasses(obj, t, done, queue);
            queue := queue[1..];
          } else {
            SourcesMined(t, x);
            err := CheckTx(x);
            if err != Nil {
              if Clear() {
                HopelessTx(obj, env, t, x);
              }
              return;
            }
            ghost var q0 := queue;
            queue := PushSources(x, done + {x}, queue[1..]);
            FrontPushes(obj, t, done, q0, queue);
          }
          done := done + {x};
        }
      }
      FrontEnds(obj, t, done, done + SetOf(queue));
      err := Nil;
    }

    lemma MinedProven(x: Hash)
      requires MinedOk() && x in mined
      ensures x in obj && obj[x].path.Some?
    {
    }

    /** After the first walk, mined knows the sources of what the second checks. */
    lemma SourcesMined(t: Hash, x: Hash)
      requires Valid() && WellLinked(obj) && t in obj && x in obj && Reaches(obj, t, x) && x !in mined
      requires forall y :: Reaches(obj, t, y) && y in obj && obj[y].path.Some? ==> y in mined
      ensures obj[x].path.None? && SourcesKnown(x)
    {
      hide Reaches, Watched;
      forall i | 0 <= i < |obj[x].inputs| ensures KnownAsMined(obj[x].inputs[i].sourceTxid) {
        var s := obj[x].inputs[i].sourceTxid;
        if s.Some? && s.value in obj {
          assert obj[x].inputs[i].linked == s;
          assert Step(obj, x, s.value);
          ReachStep(obj, t, x, s.value);
        }
      }
    }
  }

  /** Some input of x can never be spent, or they are worth too much. */
  ghost predicate SpendsNever(obj: Object, env: Env, x: Hash)
    requires x in obj && Closed(obj)
  {
    || (exists i :: 0 <= i < |obj[x].inputs| && NeverSpends(obj, env, obj[x].inputs[i]))
    || Sum(InputValues(obj, obj[x])) > MAX_SATOSHIS
  }

  lemma SpendsNeverPass(obj: Object, env: Env, x: Hash)
    requires x in obj && Closed(obj) && SpendsNever(obj, env, x)
    ensures NeverPasses(obj, env, x)
  {
    hide SpendOk, MayBecome, ScriptsOk, Final, OutpointsOk;
  }

  lemma NeverFinalPass(obj: Object, env: Env, x: Hash)
    requires x in obj && Closed(obj) && env.finality == Require && NeverFinal(env, obj[x])
    ensures NeverPasses(obj, env, x)
  {
    hide SpendOk, Final, ScriptsOk, OutpointsOk;
  }

  /** What checkTx asks without the tracker or the scripts. */
  predicate Static(obj: Object, tx: Tx)
    requires forall i :: 0 <= i < |tx.inputs| && tx.inputs[i].linked.Some? ==> tx.inputs[i].linked.value in obj
  {
    && !Coinbase(tx) && tx.inputs != [] && tx.outputs != []
    && Sum(OutputValues(tx)) <= MAX_SATOSHIS
    && (forall i :: 0 <= i < |tx.outputs| ==> !P2sh(tx.outputs[i]))
    && OutpointsOk(tx) && !Confiscation(tx)
    && Sum(OutputValues(tx)) <= Sum(InputValues(obj, tx))
  }

  lemma NotStaticNeverPass(obj: Object, env: Env, x: Hash)
    requires x in obj && Closed(obj) && !Static(obj, obj[x])
    ensures NeverPasses(obj, env, x)
  {
    hide SpendOk, Final, ScriptsOk, MayBecome, OutpointsOk, P2sh;
  }

  lemma ScriptsNeverPass(obj: Object, env: Env, x: Hash)
    requires x in obj && Closed(obj) && !env.skipScripts
    requires forall i :: 0 <= i < |obj[x].inputs| ==> SpentOutput(obj, obj[x].inputs[i]).Some?
    requires !ScriptsOk(obj, env, x)
    ensures NeverPasses(obj, env, x)
  {
    forall e | MayBecome(env, e)
      ensures !TxPasses(obj, e, x)
    {
      SameScripts(obj, env, e, x);
    }
  }

  lemma HopelessPath(obj: Object, env: Env, t: Hash, x: Hash)
    requires Closed(obj) && Reaches(obj, t, x) && x in obj && NeverProves(obj, env, x)
    ensures Hopeless(obj, env, t)
  {
  }

  /** A link that does not match is no business of the tracker's. */
  lemma HopelessLinks(obj: Object, env: Env, t: Hash, x: Hash)
    requires Closed(obj) && Reaches(obj, t, x) && x in obj && obj[x].path.None? && !LinksMatch(obj[x])
    ensures Hopeless(obj, env, t)
  {
    hide Reaches;
    assert NeverProves(obj, env, x);
  }

  lemma HopelessTx(obj: Object, env: Env, t: Hash, x: Hash)
    requires Closed(obj) && Reaches(obj, t, x) && x in obj && obj[x].path.None? && NeverPasses(obj, env, x)
    ensures Hopeless(obj, env, t)
  {
  }

  function SetOf(queue: seq<Hash>): set<Hash>
  {
    set x | x in queue
  }

  lemma SpendsExist(obj: Object, env: Env, x: Hash)
    requires x in obj && Closed(obj)
    requires forall i :: 0 <= i < |obj[x].inputs| ==> SpendOk(obj, env, obj[x].inputs[i])
    ensures forall i :: 0 <= i < |obj[x].inputs| ==> SpentOutput(obj, obj[x].inputs[i]).Some?
  {
    forall i | 0 <= i < |obj[x].inputs| ensures SpentOutput(obj, obj[x].inputs[i]).Some? {
      assert SpendOk(obj, env, obj[x].inputs[i]);
    }
  }

  lemma FrontBegins(obj: Object, t: Hash)
    requires t in obj
    ensures Front(obj, t, {}, {} + SetOf([t]), [t])
  {
    FrontStarts(obj, t);
    assert {} + SetOf([t]) == {t};
  }

  lemma FrontPasses(obj: Object, t: Hash, done: set<Hash>, queue: seq<Hash>)
    requires Front(obj, t, done, done + SetOf(queue), queue) && queue != [] && queue[0] in obj && obj[queue[0]].path.Some?
    ensures Front(obj, t, done + {queue[0]}, done + {queue[0]} + SetOf(queue[1..]), queue[1..])
  {
    hide Front;
    FrontStops(obj, t, done, done + SetOf(queue), queue);
    forall x | x in queue ensures x == queue[0] || x in queue[1..] {
      Tail(queue, x);
    }
    assert done + {queue[0]} + SetOf(queue[1..]) == done + SetOf(queue);
  }

  lemma FrontSkips(obj: Object, t: Hash, done: set<Hash>, queue: seq<Hash>)
    requires Front(obj, t, done, done + SetOf(queue), queue) && queue != [] && queue[0] in done
    ensures Front(obj, t, done, done + SetOf(queue[1..]), queue[1..])
  {
    hide Reaches;
    forall x | x in queue ensures x == queue[0] || x in queue[1..] {
      Tail(queue, x);
    }
    assert done + SetOf(queue[1..]) == done + SetOf(queue);
  }

  lemma FrontPushes(obj: Object, t: Hash, done: set<Hash>, queue: seq<Hash>, queue': seq<Hash>)
    requires Closed(obj) && t in obj && Front(obj, t, done, done + SetOf(queue), queue) && queue != []
    requires forall y :: y in queue[1..] ==> y in queue'
    requires forall y :: y in queue' ==> y in queue[1..] || Step(obj, queue[0], y)
    requires forall y :: Step(obj, queue[0], y) ==> y in done + {queue[0]} || y in queue'
    ensures Front(obj, t, done + {queue[0]}, done + {queue[0]} + SetOf(queue'), queue')
  {
    hide Front, Reaches, Step;
    var seen, seen' := done + SetOf(queue), done + {queue[0]} + SetOf(queue');
    forall y | y in queue ensures y in seen' {
      Tail(queue, y);
    }
    forall y | y in seen' ensures y in seen || (Step(obj, queue[0], y) && y in queue') {
    }
    FrontGrows(obj, t, done, seen, queue, seen', queue');
  }

  /** A walk under way from t: past is done with, the rest of seen is queued. */
  ghost predicate Front(obj: Object, t: Hash, past: set<Hash>, seen: set<Hash>, queue: seq<Hash>)
  {
    && t in seen && past <= seen
    && (forall x :: x in seen ==> x in obj && Reaches(obj, t, x))
    && (forall x :: x in seen ==> x in past || x in queue)
    && (forall x :: x in queue ==> x in seen)
    && (forall x, y :: x in past && Step(obj, x, y) ==> y in seen)
  }

  lemma FrontStarts(obj: Object, t: Hash)
    requires t in obj
    ensures Front(obj, t, {}, {t}, [t])
  {
    ReachSelf(obj, t);
  }

  lemma FrontHead(obj: Object, t: Hash, past: set<Hash>, seen: set<Hash>, queue: seq<Hash>)
    requires Front(obj, t, past, seen, queue) && queue != []
    ensures queue[0] in obj && queue[0] in seen && Reaches(obj, t, queue[0])
  {
    hide Reaches;
  }

  lemma Tail(queue: seq<Hash>, x: Hash)
    requires queue != [] && x in queue
    ensures x == queue[0] || x in queue[1..]
  {
  }

  /** The walk stops at a proven transaction. */
  lemma FrontStops(obj: Object, t: Hash, past: set<Hash>, seen: set<Hash>, queue: seq<Hash>)
    requires Front(obj, t, past, seen, queue) && queue != [] && queue[0] in obj && obj[queue[0]].path.Some?
    ensures Front(obj, t, past + {queue[0]}, seen, queue[1..])
  {
    hide Reaches;
    forall x | x in seen ensures x in past + {queue[0]} || x in queue[1..] {
      if x in queue {
        Tail(queue, x);
      }
    }
  }

  lemma FrontGrows(obj: Object, t: Hash, past: set<Hash>, seen: set<Hash>, queue: seq<Hash>, seen': set<Hash>, queue': seq<Hash>)
    requires Closed(obj) && t in obj && Front(obj, t, past, seen, queue) && queue != [] && seen <= seen'
    requires forall y :: y in seen' ==> y in seen || (Step(obj, queue[0], y) && y in queue')
    requires forall y :: y in queue[1..] ==> y in queue'
    requires forall y :: y in queue' ==> y in queue[1..] || y in seen'
    requires forall y :: Step(obj, queue[0], y) ==> y in seen'
    ensures Front(obj, t, past + {queue[0]}, seen', queue') && seen' <= obj.Keys
  {
    hide Reaches, Step;
    FrontHead(obj, t, past, seen, queue);
    forall y | y in seen' ensures y in obj && Reaches(obj, t, y) && (y in past + {queue[0]} || y in queue') {
      if y in seen {
        if y in queue {
          Tail(queue, y);
        }
      } else {
        ReachStep(obj, t, queue[0], y);
        ReachedInObject(obj, t, y);
      }
    }
  }

  lemma FrontEnds(obj: Object, t: Hash, past: set<Hash>, seen: set<Hash>)
    requires Front(obj, t, past, seen, [])
    ensures forall x :: Reaches(obj, t, x) <==> x in past
  {
    hide Step;
    assert past == seen;
    forall x | Reaches(obj, t, x) ensures x in past {
      ReachedIn(obj, seen, t, x);
    }
  }

  lemma FewerUnseen(all: set<Hash>, s: set<Hash>, s': set<Hash>)
    requires s <= s' <= all
    ensures |all - s'| <= |all - s| && (s != s' ==> |all - s'| < |all - s|)
  {
    assert all - s == (all - s') + (s' - s);
    if s != s' {
      var x :| x in s' - s;
    }
  }
}
