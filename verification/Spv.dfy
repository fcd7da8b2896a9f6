/**
  SPV verification of a BEEF object (pkg/spv/check.go, pkg/spv/spv.go): the
  object, what the chain tracker and the script interpreter answer, and what it
  means for one transaction to pass.
*/
module Spv {
  import opened Bytes
  import opened Sums

  // ---------------------------------------------------------------- the object

  datatype Output = Output(satoshis: nat, script: Option<Bytes>)

  /** linked is the in-object source transaction; embedded is the output an
      extended-format input carries itself. */
  datatype Input = Input(
    sourceTxid: Option<Hash>, vout: nat, sequence: nat,
    linked: Option<Hash>, embedded: Option<Output>)

  /** A merkle path: its block height and the root it computes to, None when it
      does not compute. */
  datatype Path = Path(height: nat, root: Option<Hash>)

  datatype Tx = Tx(inputs: seq<Input>, outputs: seq<Output>, lockTime: nat, path: Option<Path>)

  /** The transactions of a parsed object by txid. */
  type Object = map<Hash, Tx>

  /** Links point into the object. */
  predicate Closed(obj: Object)
  {
    forall x, i :: x in obj && 0 <= i < |obj[x].inputs| && obj[x].inputs[i].linked.Some? ==>
                     obj[x].inputs[i].linked.value in obj
  }

  /** The parser links every in-object source of a transaction with no path. */
  predicate WellLinked(obj: Object)
  {
    forall x, i :: x in obj && obj[x].path.None? && 0 <= i < |obj[x].inputs| ==>
                     var s := obj[x].inputs[i].sourceTxid;
                     s.Some? && s.value in obj ==> obj[x].inputs[i].linked == s
  }

  // ------------------------------------------------------------ the environment

  datatype RootAnswer = RootValid | RootInvalid | RootError

  datatype Finality = Ignore | Require

  /** roots: the tracker's answer for a root at a height. tip: its height, None
      when it fails. scripts: whether input vin of a transaction verifies, its
      coin taken as mined at the given height. genesis: the network's activation
      height, 0 for none. */
  datatype Env = Env(
    roots: (Hash, nat) -> RootAnswer, tip: Option<nat>,
    scripts: (Hash, nat, nat) -> bool, genesis: nat,
    finality: Finality, skipScripts: bool)

  const MAX_SATOSHIS := 2_100_000_000_000_000
  const COINBASE_MATURITY := 100
  const CONFISCATION_MATURITY := 1000
  const LOCKTIME_THRESHOLD := 500_000_000
  const UNMINED_HEIGHT := 0xffff_ffff
  const FINAL_SEQUENCE := 0xffff_ffff

  // -------------------------------------------------------------- one transaction

  predicate NullOutpoint(i: Input)
  {
    i.sourceTxid == Some(ZERO_HASH) && i.vout == 0xffff_ffff
  }

  predicate Coinbase(tx: Tx) { |tx.inputs| == 1 && NullOutpoint(tx.inputs[0]) }

  /** OP_HASH160 <20 bytes> OP_EQUAL. */
  predicate P2sh(o: Output)
  {
    o.script.Some? && var s := o.script.value; |s| == 23 && s[0] == 0xa9 && s[1] == 0x14 && s[22] == 0x87
  }

  const CONFISCATION_MARKER: Bytes := [0x00, 0x6a, 0x04, 0x63, 0x66, 0x74, 0x78]

  predicate Confiscation(tx: Tx)
  {
    |tx.outputs| > 0 && tx.outputs[0].script.Some? && CONFISCATION_MARKER <= tx.outputs[0].script.value
  }

  /** The height a transaction of the object is proven at. */
  function ProofHeight(obj: Object, x: Option<Hash>): Option<nat>
  {
    if x.Some? && x.value in obj && obj[x.value].path.Some? then Some(obj[x.value].path.value.height) else None
  }

  function SpentOutput(obj: Object, i: Input): Option<Output>
    requires i.linked.Some? ==> i.linked.value in obj
  {
    if i.linked.None? then i.embedded
    else if i.vout >= |obj[i.linked.value].outputs| then None
    else Some(obj[i.linked.value].outputs[i.vout])
  }

  function OutputValues(tx: Tx): seq<nat>
  {
    seq(|tx.outputs|, i requires 0 <= i < |tx.outputs| => tx.outputs[i].satoshis)
  }

  function InputValue(obj: Object, i: Input): nat
    requires i.linked.Some? ==> i.linked.value in obj
  {
    var o := SpentOutput(obj, i);
    if o.Some? then o.value.satoshis else 0
  }

  function InputValues(obj: Object, tx: Tx): seq<nat>
    requires forall i :: 0 <= i < |tx.inputs| && tx.inputs[i].linked.Some? ==> tx.inputs[i].linked.value in obj
  {
    seq(|tx.inputs|, i requires 0 <= i < |tx.inputs| => InputValue(obj, tx.inputs[i]))
  }

  /** Every input names an outpoint, none the null one, and no two the same. */
  predicate OutpointsOk(tx: Tx)
  {
    && (forall i :: 0 <= i < |tx.inputs| ==> tx.inputs[i].sourceTxid.Some? && !NullOutpoint(tx.inputs[i]))
    && (forall i, j :: 0 <= i < j < |tx.inputs| ==>
          tx.inputs[i].sourceTxid != tx.inputs[j].sourceTxid || tx.inputs[i].vout != tx.inputs[j].vout)
  }

  predicate Final(env: Env, tx: Tx)
  {
    || tx.lockTime == 0
    || (forall i :: 0 <= i < |tx.inputs| ==> tx.inputs[i].sequence == FINAL_SEQUENCE)
    || (tx.lockTime < LOCKTIME_THRESHOLD && env.tip.Some? && tx.lockTime <= env.tip.value)
  }

  predicate DeepEnough(obj: Object, env: Env, i: Input, maturity: int)
  {
    var h := ProofHeight(obj, i.sourceTxid);
    h.Some? && env.tip.Some? && env.tip.value + 1 - h.value >= maturity
  }

  /** An input spends an output that exists and is mature. */
  predicate SpendOk(obj: Object, env: Env, i: Input)
    requires i.linked.Some? ==> i.linked.value in obj
  {
    && SpentOutput(obj, i).Some?
    && (i.linked.Some? && Coinbase(obj[i.linked.value]) ==> DeepEnough(obj, env, i, COINBASE_MATURITY))
    && (i.linked.Some? && Confiscation(obj[i.linked.value]) ==> DeepEnough(obj, env, i, CONFISCATION_MATURITY))
  }

  /** The height an input's coin is judged at: a P2SH-shaped output that is not a
      proven coinbase's can only be from before genesis. */
  function CoinHeight(obj: Object, env: Env, i: Input): nat
    requires i.linked.Some? ==> i.linked.value in obj
    requires SpentOutput(obj, i).Some?
  {
    var proven := ProofHeight(obj, i.sourceTxid);
    var coin := if proven.Some? then proven.value else UNMINED_HEIGHT;
    if env.genesis == 0 || !P2sh(SpentOutput(obj, i).value) then coin
    else if i.linked.Some? && Coinbase(obj[i.linked.value]) && proven.Some? then coin
    else if coin >= env.genesis then env.genesis - 1
    else coin
  }

  /** All that checkTx asks but the scripts. */
  predicate StructureOk(obj: Object, env: Env, tx: Tx)
    requires forall i :: 0 <= i < |tx.inputs| && tx.inputs[i].linked.Some? ==> tx.inputs[i].linked.value in obj
  {
    && !Coinbase(tx) && tx.inputs != [] && tx.outputs != []
    && Sum(OutputValues(tx)) <= MAX_SATOSHIS
    && (forall i :: 0 <= i < |tx.outputs| ==> !P2sh(tx.outputs[i]))
    && OutpointsOk(tx)
    && (env.finality == Require ==> Final(env, tx))
    && !Confiscation(tx)
    && (forall i :: 0 <= i < |tx.inputs| ==> SpendOk(obj, env, tx.inputs[i]))
    && Sum(InputValues(obj, tx)) <= MAX_SATOSHIS
    && Sum(OutputValues(tx)) <= Sum(InputValues(obj, tx))
  }

  predicate ScriptsOk(obj: Object, env: Env, x: Hash)
    requires x in obj && Closed(obj)
    requires forall i :: 0 <= i < |obj[x].inputs| ==> SpentOutput(obj, obj[x].inputs[i]).Some?
  {
    forall i :: 0 <= i < |obj[x].inputs| ==> env.scripts(x, i, CoinHeight(obj, env, obj[x].inputs[i]))
  }

  predicate LinksMatch(tx: Tx)
  {
    forall i :: 0 <= i < |tx.inputs| && tx.inputs[i].linked.Some? ==> tx.inputs[i].sourceTxid == tx.inputs[i].linked
  }

  predicate PathProved(env: Env, p: Path)
  {
    p.root.Some? && env.roots(p.root.value, p.height) == RootValid
  }

  /** What the first walk asks of a transaction. */
  predicate Proves(obj: Object, env: Env, x: Hash)
    requires x in obj
  {
    if obj[x].path.Some? then PathProved(env, obj[x].path.value) else LinksMatch(obj[x])
  }

  predicate TxPasses(obj: Object, env: Env, x: Hash)
    requires x in obj && Closed(obj)
  {
    StructureOk(obj, env, obj[x]) && (env.skipScripts || ScriptsOk(obj, env, x))
  }

  /** What the two walks together ask: a path proves, or the transaction passes. */
  predicate Good(obj: Object, env: Env, x: Hash)
    requires x in obj && Closed(obj)
  {
    Proves(obj, env, x) && (obj[x].path.None? ==> TxPasses(obj, env, x))
  }

  // -------------------------------------------------------------- reachability

  /** Both walks go from a transaction with no path to its linked sources. */
  predicate Step(obj: Object, x: Hash, y: Hash)
  {
    x in obj && obj[x].path.None? && exists i :: 0 <= i < |obj[x].inputs| && obj[x].inputs[i].linked == Some(y)
  }

  predicate Walk(obj: Object, p: seq<Hash>)
  {
    p != [] && p[0] in obj && forall i :: 0 <= i < |p| - 1 ==> Step(obj, p[i], p[i + 1])
  }

  ghost predicate Reaches(obj: Object, t: Hash, x: Hash)
  {
    exists p :: Walk(obj, p) && p[0] == t && p[|p| - 1] == x
  }

  lemma ReachSelf(obj: Object, t: Hash)
    requires t in obj
    ensures Reaches(obj, t, t)
  {
    assert Walk(obj, [t]);
  }

  lemma ReachStep(obj: Object, t: Hash, x: Hash, y: Hash)
    requires Reaches(obj, t, x) && Step(obj, x, y)
    ensures Reaches(obj, t, y)
  {
    var p :| Walk(obj, p) && p[0] == t && p[|p| - 1] == x;
    var q := p + [y];
    forall i | 0 <= i < |q| - 1 ensures Step(obj, q[i], q[i + 1]) {
      if i < |p| - 1 {
        assert Step(obj, p[i], p[i + 1]);
      }
    }
    assert Walk(obj, q) && q[0] == t && q[|q| - 1] == y;
  }

  ghost predicate ClosedUnder(obj: Object, s: set<Hash>)
  {
    forall x, y :: x in s && Step(obj, x, y) ==> y in s
  }

  lemma {:induction false} WalkStays(obj: Object, s: set<Hash>, p: seq<Hash>, k: nat)
    requires Walk(obj, p) && p[0] in s && ClosedUnder(obj, s) && k < |p|
    ensures p[k] in s
    decreases k
  {
    if k == 0 {
    } else {
      WalkStays(obj, s, p, k - 1);
      assert Step(obj, p[k - 1], p[k - 1 + 1]);
    }
  }

  /** A set closed under the walk's steps holds all that is reached from it. */
  lemma ReachedIn(obj: Object, s: set<Hash>, t: Hash, x: Hash)
    requires t in s && ClosedUnder(obj, s) && Reaches(obj, t, x)
    ensures x in s
  {
    var p :| Walk(obj, p) && p[0] == t && p[|p| - 1] == x;
    WalkStays(obj, s, p, |p| - 1);
  }

  lemma ReachedInObject(obj: Object, t: Hash, x: Hash)
    requires t in obj && Closed(obj) && Reaches(obj, t, x)
    ensures x in obj
  {
    ReachedIn(obj, obj.Keys, t, x);
  }

  // ------------------------------------------------------------------ the verdict

  /** An in-object transaction names x as a source. */
  ghost predicate Spent(obj: Object, x: Hash)
  {
    exists y, i :: y in obj && 0 <= i < |obj[y].inputs| && obj[y].inputs[i].sourceTxid == Some(x)
  }

  ghost predicate Tip(obj: Object, t: Hash) { t in obj && !Spent(obj, t) }

  /** The verification passes: everything reached from every tip is good. */
  ghost predicate Passes(obj: Object, env: Env)
    requires Closed(obj)
  {
    obj != map[] && forall t, x :: Tip(obj, t) && Reaches(obj, t, x) ==> x in obj && Good(obj, env, x)
  }

  // ------------------------------------------------------------------ acyclicity

  /** y, in the object, names x as the source of one of its inputs. */
  predicate Spends(obj: Object, y: Hash, x: Hash)
  {
    y in obj && exists i :: 0 <= i < |obj[y].inputs| && obj[y].inputs[i].sourceTxid == Some(x)
  }

  /** No chain of spends returns to where it began: spenders rank lower. */
  ghost predicate Acyclic(obj: Object)
  {
    exists rank: map<Hash, nat> :: Ranked(obj, rank)
  }

  ghost predicate Ranked(obj: Object, rank: map<Hash, nat>)
  {
    obj.Keys <= rank.Keys &&
    forall x, y :: x in obj && Spends(obj, y, x) ==> rank[y] < rank[x]
  }

  // ------------------------------------------------------- what the tracker left open

  /** The tracker answered: no error, and no rejection above the height it knows. */
  predicate Resolved(env: Env, root: Hash, height: nat)
  {
    match env.roots(root, height)
    case RootValid => true
    case RootInvalid => env.tip.None? || height <= env.tip.value
    case RootError => false
  }

  /** env' is env, or what it may turn out to be: it keeps every answer the tracker gave
      and may give any other where there was none. */
  ghost predicate MayBecome(env: Env, env': Env)
  {
    && env'.scripts == env.scripts && env'.genesis == env.genesis
    && env'.finality == env.finality && env'.skipScripts == env.skipScripts
    && (env.tip.Some? ==> env'.tip == env.tip)
    && forall root, height :: Resolved(env, root, height) ==> env'.roots(root, height) == env.roots(root, height)
  }

  /** The tracker leaves nothing open. */
  ghost predicate Decisive(env: Env)
  {
    env.tip.Some? && forall root, height :: Resolved(env, root, height)
  }

  ghost predicate NeverFinal(env: Env, tx: Tx)
  {
    forall e :: MayBecome(env, e) ==> !Final(e, tx)
  }

  ghost predicate NeverDeep(obj: Object, env: Env, i: Input, maturity: int)
  {
    forall e :: MayBecome(env, e) ==> !DeepEnough(obj, e, i, maturity)
  }

  ghost predicate NeverSpends(obj: Object, env: Env, i: Input)
    requires i.linked.Some? ==> i.linked.value in obj
  {
    forall e :: MayBecome(env, e) ==> !SpendOk(obj, e, i)
  }

  ghost predicate NeverPasses(obj: Object, env: Env, x: Hash)
    requires x in obj && Closed(obj)
  {
    forall e :: MayBecome(env, e) ==> !TxPasses(obj, e, x)
  }

  ghost predicate NeverProves(obj: Object, env: Env, x: Hash)
    requires x in obj
  {
    forall e :: MayBecome(env, e) ==> !Proves(obj, e, x)
  }

  /** Something reached from t is bad, whatever the tracker left open. */
  ghost predicate Hopeless(obj: Object, env: Env, t: Hash)
    requires Closed(obj)
  {
    exists x :: Reaches(obj, t, x) && x in obj &&
                (NeverProves(obj, env, x) || (obj[x].path.None? && NeverPasses(obj, env, x)))
  }

  lemma SameScripts(obj: Object, env: Env, env': Env, x: Hash)
    requires Closed(obj) && x in obj && env.scripts == env'.scripts && env.genesis == env'.genesis
    requires forall i :: 0 <= i < |obj[x].inputs| ==> SpentOutput(obj, obj[x].inputs[i]).Some?
    ensures ScriptsOk(obj, env, x) <==> ScriptsOk(obj, env', x)
  {
    assert forall i :: 0 <= i < |obj[x].inputs| ==>
             CoinHeight(obj, env, obj[x].inputs[i]) == CoinHeight(obj, env', obj[x].inputs[i]);
  }

  lemma HopelessFails(obj: Object, env: Env, t: Hash, env': Env)
    requires Closed(obj) && Tip(obj, t) && Hopeless(obj, env, t) && MayBecome(env, env')
    ensures !Passes(obj, env')
  {
    var x :| Reaches(obj, t, x) && x in obj &&
             (NeverProves(obj, env, x) || (obj[x].path.None? && NeverPasses(obj, env, x)));
    assert !Good(obj, env', x);
  }
}
