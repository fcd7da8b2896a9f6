/**
  What the checks of one transaction mean (pkg/spv/check.go), in terms of the object's own
  fields and of scripts and heights built from their parts.
*/
module SpvMeaning {
  import opened Bytes
  import opened Sums
  import opened Spv
  import opened SpvTheorems

  /** o is the output that an input spends: of its source in the object, at the index the
      input names, or the one it carries itself. */
  predicate Spending(obj: Object, i: Input, o: Output)
  {
    match i.linked
    case Some(s) => s in obj && i.vout < |obj[s].outputs| && obj[s].outputs[i.vout] == o
    case None => i.embedded == Some(o)
  }

  ghost predicate HasOutput(obj: Object, i: Input)
  {
    exists o :: Spending(obj, i, o)
  }

  /** vs are the values of the outputs that a transaction's inputs spend. */
  ghost predicate SpentValues(obj: Object, tx: Tx, vs: seq<nat>)
  {
    |vs| == |tx.inputs| && forall i :: 0 <= i < |vs| ==> Worth(obj, tx.inputs[i], vs[i])
  }

  /** The output an input spends is worth v. */
  ghost predicate Worth(obj: Object, i: Input, v: nat)
  {
    exists o :: Spending(obj, i, o) && o.satoshis == v
  }

  /** vs are the values of a transaction's own outputs. */
  predicate PaidValues(tx: Tx, vs: seq<nat>)
  {
    |vs| == |tx.outputs| && forall i :: 0 <= i < |vs| ==> vs[i] == tx.outputs[i].satoshis
  }

  /** A transaction that passes creates no money: every input spends an output that exists,
      and what it pays is no more than the sum of just those outputs, which is itself no
      more than 21 million coins. */
  lemma PassesConserves(obj: Object, env: Env, x: Hash, spent: seq<nat>, paid: seq<nat>)
    requires Closed(obj) && x in obj && TxPasses(obj, env, x)
    requires SpentValues(obj, obj[x], spent) && PaidValues(obj[x], paid)
    ensures Sum(paid) <= Sum(spent) <= 2_100_000_000_000_000
  {
    assert OutputValues(obj[x]) == paid;
    forall i | 0 <= i < |spent|
      ensures InputValue(obj, obj[x].inputs[i]) == spent[i]
    {
      assert Worth(obj, obj[x].inputs[i], spent[i]);
    }
    assert InputValues(obj, obj[x]) == spent;
  }

  lemma PassesSpends(obj: Object, env: Env, x: Hash, i: nat)
    requires Closed(obj) && x in obj && TxPasses(obj, env, x) && i < |obj[x].inputs|
    ensures HasOutput(obj, obj[x].inputs[i])
    ensures forall s :: obj[x].inputs[i].linked == Some(s) ==> s in obj && obj[x].inputs[i].vout < |obj[s].outputs|
  {
    hide Final, P2sh, OutpointsOk, ScriptsOk;
    assert SpendOk(obj, env, obj[x].inputs[i]);
    var o := SpentOutput(obj, obj[x].inputs[i]).value;
    assert Spending(obj, obj[x].inputs[i], o);
  }

  /** A transaction of existing inputs that would create money does not pass. */
  lemma OverspendFails(obj: Object, env: Env, x: Hash, spent: seq<nat>, paid: seq<nat>)
    requires Closed(obj) && x in obj && SpentValues(obj, obj[x], spent) && PaidValues(obj[x], paid)
    requires Sum(paid) > Sum(spent) || Sum(spent) > 2_100_000_000_000_000
    ensures !TxPasses(obj, env, x)
  {
    if TxPasses(obj, env, x) {
      PassesConserves(obj, env, x, spent, paid);
    }
  }

  /** On an acyclic object whose spent unproven transactions have unproven spenders, OK
      means that no unproven transaction creates money, each spends outputs that exist, and
      every path reached computes a root the chain commits to at its height. */
  lemma PassingConserves(obj: Object, env: Env, x: Hash, spent: seq<nat>, paid: seq<nat>)
    requires Closed(obj) && WellLinked(obj) && Acyclic(obj) && UnprovenSpender(obj) && Passes(obj, env)
    requires x in obj && obj[x].path.None?
    ensures forall i :: 0 <= i < |obj[x].inputs| ==> HasOutput(obj, obj[x].inputs[i])
    ensures SpentValues(obj, obj[x], spent) && PaidValues(obj[x], paid) ==>
              Sum(paid) <= Sum(spent) <= 2_100_000_000_000_000
    ensures forall t, y, h, r :: Tip(obj, t) && Reaches(obj, t, y) && y in obj && obj[y].path == Some(Path(h, r)) ==>
              r.Some? && env.roots(r.value, h) == RootValid
  {
    hide Reaches, Spent, TxPasses, Acyclic, UnprovenSpender, WellLinked;
    PassingCovers(obj, env);
    forall i | 0 <= i < |obj[x].inputs|
      ensures HasOutput(obj, obj[x].inputs[i])
    {
      PassesSpends(obj, env, x, i);
    }
    if SpentValues(obj, obj[x], spent) && PaidValues(obj[x], paid) {
      PassesConserves(obj, env, x, spent, paid);
    }
    forall t, y, h, r | Tip(obj, t) && Reaches(obj, t, y) && y in obj && obj[y].path == Some(Path(h, r))
      ensures r.Some? && env.roots(r.value, h) == RootValid
    {
      assert PathProved(env, obj[y].path.value);
    }
  }

  // -------------------------------------------------------------------- outpoints

  /** A transaction that passes names only real outpoints, and no two the same; so it is no
      coinbase. */
  lemma PassesOutpoints(obj: Object, env: Env, x: Hash, i: nat, j: nat)
    requires Closed(obj) && x in obj && TxPasses(obj, env, x) && i < j < |obj[x].inputs|
    ensures obj[x].inputs[i].sourceTxid.Some?
    ensures obj[x].inputs[i].sourceTxid != Some(ZERO_HASH) || obj[x].inputs[i].vout != 0xffff_ffff
    ensures (obj[x].inputs[i].sourceTxid, obj[x].inputs[i].vout) != (obj[x].inputs[j].sourceTxid, obj[x].inputs[j].vout)
  {
  }

  /** The one input of a coinbase names no output: the zero hash and the last index. */
  lemma CoinbaseNames(i: Input, outputs: seq<Output>, lockTime: nat, path: Option<Path>)
    ensures Coinbase(Tx([i], outputs, lockTime, path)) <==> i.sourceTxid == Some(ZERO_HASH) && i.vout == 0xffff_ffff
    ensures forall ins: seq<Input> :: |ins| != 1 ==> !Coinbase(Tx(ins, outputs, lockTime, path))
  {
  }

  // ---------------------------------------------------------------------- scripts

  /** OP_HASH160, a push of 20 bytes, those bytes, OP_EQUAL. */
  function P2shScript(hash: Bytes): Bytes
  {
    [0xa9, 0x14] + hash + [0x87]
  }

  /** Exactly the scripts that pay to the hash of a script are refused as outputs. */
  lemma P2shExact(o: Output)
    ensures P2sh(o) <==> exists hash: Bytes :: |hash| == 20 && o.script == Some(P2shScript(hash))
  {
    if P2sh(o) {
      var hash := o.script.value[2..22];
      assert o.script.value == P2shScript(hash);
    }
  }

  lemma PassesNoP2sh(obj: Object, env: Env, x: Hash, i: nat, hash: Bytes)
    requires Closed(obj) && x in obj && i < |obj[x].outputs| && |hash| == 20
    requires obj[x].outputs[i].script == Some(P2shScript(hash))
    ensures !TxPasses(obj, env, x)
  {
    P2shExact(obj[x].outputs[i]);
  }

  /** The confiscation marker: OP_FALSE OP_RETURN and a push of "cftx". */
  lemma ConfiscationExact(tx: Tx)
    ensures Confiscation(tx) <==>
            tx.outputs != [] && exists rest: Bytes :: tx.outputs[0].script == Some([0x00, 0x6a, 0x04, 0x63, 0x66, 0x74, 0x78] + rest)
  {
    if Confiscation(tx) {
      var s := tx.outputs[0].script.value;
      assert s == [0x00, 0x6a, 0x04, 0x63, 0x66, 0x74, 0x78] + s[7..];
    }
  }

  /** The height a spent coin's script is judged at. A coin proven at h is judged there and
      one not proven as the newest; but a pay-to-script-hash coin, unless a coinbase proven
      where it stands, is judged before the network's genesis activation, if it has one. */
  lemma CoinHeightLaws(obj: Object, env: Env, i: Input)
    requires Closed(obj) && (i.linked.Some? ==> i.linked.value in obj) && SpentOutput(obj, i).Some?
    ensures var at := if ProvenAt(obj, i.sourceTxid).Some? then ProvenAt(obj, i.sourceTxid).value else 0xffff_ffff;
            var p2sh := P2sh(SpentOutput(obj, i).value);
            var minted := i.linked.Some? && Coinbase(obj[i.linked.value]) && ProvenAt(obj, i.sourceTxid).Some?;
            && (env.genesis == 0 || !p2sh || minted ==> CoinHeight(obj, env, i) == at)
            && (env.genesis > 0 && p2sh && !minted ==>
                  CoinHeight(obj, env, i) < env.genesis &&
                  CoinHeight(obj, env, i) == if at < env.genesis then at else env.genesis - 1)
  {
  }

  /** The height of the path that a transaction of the object carries. */
  function ProvenAt(obj: Object, x: Option<Hash>): Option<nat>
  {
    match x
    case None => None
    case Some(y) =>
      if y in obj then (match obj[y].path case Some(Path(h, _)) => Some(h) case None => None) else None
  }

  // ------------------------------------------------------------ finality and depth

  /** A coin mined at h may be spent in the block after the tip once that block is at least
      maturity blocks above h; 100 for a coinbase and 1000 for a confiscation. */
  lemma MatureExactly(obj: Object, env: Env, i: Input, maturity: nat)
    ensures DeepEnough(obj, env, i, maturity) <==>
            exists h: nat, tip: nat :: ProvenAt(obj, i.sourceTxid) == Some(h) && env.tip == Some(tip) && h + maturity <= tip + 1
  {
  }

  lemma PassesMature(obj: Object, env: Env, x: Hash, i: nat, s: Hash)
    requires Closed(obj) && x in obj && TxPasses(obj, env, x) && i < |obj[x].inputs| && obj[x].inputs[i].linked == Some(s)
    ensures Coinbase(obj[s]) ==> DeepEnough(obj, env, obj[x].inputs[i], 100)
    ensures Confiscation(obj[s]) ==> DeepEnough(obj, env, obj[x].inputs[i], 1000)
  {
    hide Final, P2sh, OutpointsOk, ScriptsOk, DeepEnough;
    assert SpendOk(obj, env, obj[x].inputs[i]);
  }

  /** A transaction is final for the block after the tip when it is not locked, when every
      input gives the lock up, or when it is locked to a height the tip has reached; a lock
      to a time is never judged reached. */
  lemma FinalExactly(env: Env, tx: Tx)
    ensures tx.lockTime == 0 ==> Final(env, tx)
    ensures (forall i :: 0 <= i < |tx.inputs| ==> tx.inputs[i].sequence == 0xffff_ffff) ==> Final(env, tx)
    ensures tx.lockTime > 0 && (exists i :: 0 <= i < |tx.inputs| && tx.inputs[i].sequence != 0xffff_ffff) ==>
              (Final(env, tx) <==> tx.lockTime < 500_000_000 && exists tip: nat :: env.tip == Some(tip) && tx.lockTime <= tip)
  {
  }

  /** What is final stays final as the chain grows, and so does what is mature. */
  lemma GrowthKeeps(obj: Object, env: Env, tx: Tx, i: Input, maturity: nat, tip: nat)
    requires env.tip.Some? && env.tip.value <= tip
    ensures Final(env, tx) ==> Final(env.(tip := Some(tip)), tx)
    ensures DeepEnough(obj, env, i, maturity) ==> DeepEnough(obj, env.(tip := Some(tip)), i, maturity)
  {
  }

  // ---------------------------------------------------------------- all the checks

  /** Two inputs that are not the same outpoint, neither of them the null one. */
  predicate Apart(a: Input, b: Input)
  {
    a.sourceTxid != b.sourceTxid || a.vout != b.vout
  }

  predicate Real(i: Input)
  {
    i.sourceTxid.Some? && !(i.sourceTxid.value == ZERO_HASH && i.vout == 0xffff_ffff)
  }

  /** An input spends no coinbase or confiscation that is not deep enough. */
  predicate Mature(obj: Object, env: Env, i: Input)
  {
    match i.linked
    case None => true
    case Some(s) =>
      s in obj ==>
        && (Coinbase(obj[s]) ==> DeepEnough(obj, env, i, 100))
        && (Confiscation(obj[s]) ==> DeepEnough(obj, env, i, 1000))
  }

  ghost predicate ScriptHolds(obj: Object, env: Env, x: Hash, i: nat)
    requires Closed(obj) && x in obj && i < |obj[x].inputs|
  {
    SpentOutput(obj, obj[x].inputs[i]).Some? && env.scripts(x, i, CoinHeight(obj, env, obj[x].inputs[i]))
  }

  /** checkTx passes a transaction whose inputs all have outputs exactly when each of these
      holds, and nothing else is asked. */
  lemma PassesExactly(obj: Object, env: Env, x: Hash, spent: seq<nat>, paid: seq<nat>)
    requires Closed(obj) && x in obj && SpentValues(obj, obj[x], spent) && PaidValues(obj[x], paid)
    ensures TxPasses(obj, env, x) <==>
            var tx := obj[x];
            && |tx.inputs| > 0 && |tx.outputs| > 0
            && (forall i :: 0 <= i < |tx.inputs| ==> Real(tx.inputs[i]))
            && (forall i :: 0 <= i < |tx.inputs| ==> Mature(obj, env, tx.inputs[i]))
            && (forall i, j :: 0 <= i < j < |tx.inputs| ==> Apart(tx.inputs[i], tx.inputs[j]))
            && (forall i :: 0 <= i < |tx.outputs| ==> !P2sh(tx.outputs[i]))
            && !Confiscation(tx)
            && (env.finality == Require ==> Final(env, tx))
            && Sum(paid) <= Sum(spent) <= 2_100_000_000_000_000
            && (env.skipScripts || forall i :: 0 <= i < |tx.inputs| ==> ScriptHolds(obj, env, x, i))
  {
    hide Final, P2sh, Confiscation, DeepEnough, CoinHeight, OutpointsOk, Coinbase;
    var tx := obj[x];
    SameOutpoints(tx);
    assert OutputValues(tx) == paid;
    SpendsExactly(obj, env, tx, spent);
    assert Sum(InputValues(obj, tx)) == Sum(spent);
    hide SpentValues, SpendOk, Mature, Real, NullOutpoint, SpentOutput, InputValues, OutputValues;
    ScriptsExactly(obj, env, x);
    hide ScriptsOk, ScriptHolds;
  }

  lemma SpendsExactly(obj: Object, env: Env, tx: Tx, spent: seq<nat>)
    requires Closed(obj) && SpentValues(obj, tx, spent)
    requires forall i :: 0 <= i < |tx.inputs| && tx.inputs[i].linked.Some? ==> tx.inputs[i].linked.value in obj
    ensures forall i :: 0 <= i < |tx.inputs| ==> SpentOutput(obj, tx.inputs[i]).Some?
    ensures forall i :: 0 <= i < |tx.inputs| ==> (SpendOk(obj, env, tx.inputs[i]) <==> Mature(obj, env, tx.inputs[i]))
    ensures InputValues(obj, tx) == spent
  {
    hide DeepEnough, Coinbase, Confiscation;
    forall i | 0 <= i < |tx.inputs|
      ensures SpentOutput(obj, tx.inputs[i]).Some? && InputValue(obj, tx.inputs[i]) == spent[i]
      ensures SpendOk(obj, env, tx.inputs[i]) <==> Mature(obj, env, tx.inputs[i])
    {
      assert Worth(obj, tx.inputs[i], spent[i]);
    }
  }

  lemma ScriptsExactly(obj: Object, env: Env, x: Hash)
    requires Closed(obj) && x in obj
    requires forall i :: 0 <= i < |obj[x].inputs| ==> SpentOutput(obj, obj[x].inputs[i]).Some?
    ensures ScriptsOk(obj, env, x) <==> forall i :: 0 <= i < |obj[x].inputs| ==> ScriptHolds(obj, env, x, i)
  {
    if forall i :: 0 <= i < |obj[x].inputs| ==> ScriptHolds(obj, env, x, i) {
      forall i | 0 <= i < |obj[x].inputs|
        ensures env.scripts(x, i, CoinHeight(obj, env, obj[x].inputs[i]))
      {
        assert ScriptHolds(obj, env, x, i);
      }
    }
  }

  lemma SameOutpoints(tx: Tx)
    ensures OutpointsOk(tx) <==>
            && (forall i :: 0 <= i < |tx.inputs| ==> Real(tx.inputs[i]))
            && (forall i, j :: 0 <= i < j < |tx.inputs| ==> Apart(tx.inputs[i], tx.inputs[j]))
    ensures OutpointsOk(tx) ==> !Coinbase(tx)
  {
  }
}
