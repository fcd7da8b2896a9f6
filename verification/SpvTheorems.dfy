/** What a passing verification means for the whole object. */
module SpvTheorems {
  import opened Bytes
  import opened Sums
  import opened Spv

  ghost predicate AllLinksMatch(obj: Object)
  {
    forall x :: x in obj && obj[x].path.None? ==> LinksMatch(obj[x])
  }

  /** Every unproven transaction is reached by the walks from some tip. */
  ghost predicate Covered(obj: Object)
  {
    forall x :: x in obj && obj[x].path.None? ==> exists t :: Tip(obj, t) && Reaches(obj, t, x)
  }

  /** An unproven transaction that is spent at all is spent by an unproven one. */
  ghost predicate UnprovenSpender(obj: Object)
  {
    forall x :: x in obj && obj[x].path.None? && Spent(obj, x) ==>
                  exists y :: Spends(obj, y, x) && obj[y].path.None?
  }

  lemma {:induction false} CoveredFrom(obj: Object, rank: map<Hash, nat>, x: Hash)
    requires Closed(obj) && WellLinked(obj) && Ranked(obj, rank) && UnprovenSpender(obj)
    requires x in obj && obj[x].path.None?
    ensures exists t :: Tip(obj, t) && Reaches(obj, t, x)
    decreases rank[x]
  {
    if Spent(obj, x) {
      var y :| Spends(obj, y, x) && obj[y].path.None?;
      CoveredFrom(obj, rank, y);
      var t :| Tip(obj, t) && Reaches(obj, t, y);
      assert Step(obj, y, x);
      ReachStep(obj, t, y, x);
    } else {
      ReachSelf(obj, x);
      assert Tip(obj, x);
    }
  }

  /** The last step of a walk that has one. */
  lemma LastStep(obj: Object, t: Hash, x: Hash) returns (y: Hash)
    requires Reaches(obj, t, x) && t != x
    ensures Step(obj, y, x)
  {
    var p :| Walk(obj, p) && p[0] == t && p[|p| - 1] == x;
    y := p[|p| - 2];
    assert Step(obj, p[|p| - 2], p[|p| - 2 + 1]);
  }

  /** On an acyclic object the walks from the tips cover every unproven
      transaction exactly when each spent one has an unproven spender. */
  lemma CoverageIff(obj: Object)
    requires Closed(obj) && WellLinked(obj) && AllLinksMatch(obj) && Acyclic(obj)
    ensures Covered(obj) <==> UnprovenSpender(obj)
  {
    var rank :| Ranked(obj, rank);
    if UnprovenSpender(obj) {
      forall x | x in obj && obj[x].path.None? ensures exists t :: Tip(obj, t) && Reaches(obj, t, x) {
        CoveredFrom(obj, rank, x);
      }
    }
    if Covered(obj) {
      forall x | x in obj && obj[x].path.None? && Spent(obj, x) ensures exists y :: Spends(obj, y, x) && obj[y].path.None? {
        var t :| Tip(obj, t) && Reaches(obj, t, x);
        var y := LastStep(obj, t, x);
        assert LinksMatch(obj[y]);
        assert Spends(obj, y, x);
      }
    }
  }

  /** The stated hypothesis, that no proven transaction spends an unproven one,
      gives every spent unproven transaction an unproven spender. */
  lemma ProvenSpendsProven(obj: Object)
    requires forall x, y :: x in obj && Spends(obj, y, x) && obj[y].path.Some? ==> obj[x].path.Some?
    ensures UnprovenSpender(obj)
  {
    forall x | x in obj && obj[x].path.None? && Spent(obj, x) ensures exists y :: Spends(obj, y, x) && obj[y].path.None? {
      var y, i :| y in obj && 0 <= i < |obj[y].inputs| && obj[y].inputs[i].sourceTxid == Some(x);
      assert Spends(obj, y, x);
    }
  }

  /** A passing verification covers the object: every unproven transaction passed
      checkTx, with exact sums, and every path reached from a tip proved. */
  lemma PassingCovers(obj: Object, env: Env)
    requires Closed(obj) && WellLinked(obj) && Acyclic(obj) && UnprovenSpender(obj) && Passes(obj, env)
    ensures forall x :: x in obj && obj[x].path.None? ==>
              && TxPasses(obj, env, x)
              && Sum(OutputValues(obj[x])) <= Sum(InputValues(obj, obj[x])) <= MAX_SATOSHIS
    ensures forall t, x :: Tip(obj, t) && Reaches(obj, t, x) && x in obj && obj[x].path.Some? ==>
              PathProved(env, obj[x].path.value)
  {
    var rank :| Ranked(obj, rank);
    forall x | x in obj && obj[x].path.None?
      ensures TxPasses(obj, env, x)
    {
      CoveredFrom(obj, rank, x);
      var t :| Tip(obj, t) && Reaches(obj, t, x);
      assert Good(obj, env, x);
    }
  }

  /** The gap outside the condition: U has no path and pays two satoshis out of one, so
      it cannot pass, but its only spender P is proven and the walk stops there. Both are
      well formed otherwise. */
  function Shadowed(s: Hash, u: Hash, p: Hash, root: Hash, height: nat): Object
  {
    map[u := Tx([Input(Some(s), 0, FINAL_SEQUENCE, None, Some(Output(1, Some([]))))], [Output(2, Some([]))], 0, None),
        p := Tx([Input(Some(u), 0, FINAL_SEQUENCE, None, None)], [Output(2, Some([]))], 0, Some(Path(height, Some(root))))]
  }

  lemma ShadowedPasses(s: Hash, u: Hash, p: Hash, root: Hash, height: nat, env: Env)
    requires s != u && s != p && u != p && s != ZERO_HASH && env.roots(root, height) == RootValid
    ensures var obj := Shadowed(s, u, p, root, height);
            && Closed(obj) && WellLinked(obj) && AllLinksMatch(obj) && Acyclic(obj)
            && Passes(obj, env) && !TxPasses(obj, env, u)
            && SpendOk(obj, env, obj[u].inputs[0]) && OutpointsOk(obj[u]) && Final(env, obj[u])
            && forall t :: Tip(obj, t) ==> !Reaches(obj, t, u)
  {
    var obj := Shadowed(s, u, p, root, height);
    ShadowedWalk(s, u, p, root, height);
    ShadowedOverspends(s, u, p, root, height, env);
    hide Reaches, Spent, TxPasses, Closed, WellLinked, AllLinksMatch, SpendOk, OutpointsOk, Final;
    forall t, x | Tip(obj, t) && Reaches(obj, t, x) ensures x == p && Good(obj, env, x) {
      assert t == p;
    }
  }

  lemma ShadowedWalk(s: Hash, u: Hash, p: Hash, root: Hash, height: nat)
    requires s != u && s != p && u != p
    ensures var obj := Shadowed(s, u, p, root, height);
            && Closed(obj) && WellLinked(obj) && AllLinksMatch(obj) && Acyclic(obj) && Spent(obj, u)
            && forall x :: Reaches(obj, p, x) ==> x == p
  {
    var obj := Shadowed(s, u, p, root, height);
    var rank := map[u := 1 as nat, p := 0];
    assert Ranked(obj, rank);
    assert obj[p].inputs[0].sourceTxid == Some(u);
    assert ClosedUnder(obj, {p});
    forall x | Reaches(obj, p, x) ensures x == p {
      ReachedIn(obj, {p}, p, x);
    }
  }

  lemma ShadowedOverspends(s: Hash, u: Hash, p: Hash, root: Hash, height: nat, env: Env)
    requires s != u && s != p && u != p && s != ZERO_HASH
    ensures var obj := Shadowed(s, u, p, root, height);
            && Closed(obj) && !TxPasses(obj, env, u)
            && SpendOk(obj, env, obj[u].inputs[0]) && OutpointsOk(obj[u]) && Final(env, obj[u])
  {
    var obj := Shadowed(s, u, p, root, height);
    assert InputValues(obj, obj[u]) == [1] && OutputValues(obj[u]) == [2];
    assert Sum([1]) == 1 + Sum([]) && Sum([2]) == 2 + Sum([]);
  }

  // ------------------------------------------------------------ the trust split

  /** Every script of every unproven transaction reached from a tip verifies. */
  ghost predicate AllScripts(obj: Object, env: Env)
    requires Closed(obj)
  {
    forall t, x :: Tip(obj, t) && Reaches(obj, t, x) ==>
                     x in obj && obj[x].path.None? && StructureOk(obj, env, obj[x]) ==> ScriptsOk(obj, env, x)
  }

  lemma GoodSplit(obj: Object, env: Env, x: Hash)
    requires Closed(obj) && x in obj && !env.skipScripts
    ensures Good(obj, env, x) <==>
            Good(obj, env.(skipScripts := true), x) &&
            (obj[x].path.None? && StructureOk(obj, env, obj[x]) ==> ScriptsOk(obj, env, x))
  {
    var skip := env.(skipScripts := true);
    assert forall i :: 0 <= i < |obj[x].inputs| ==>
             (SpendOk(obj, skip, obj[x].inputs[i]) <==> SpendOk(obj, env, obj[x].inputs[i]));
    assert Final(skip, obj[x]) <==> Final(env, obj[x]);
    assert StructureOk(obj, skip, obj[x]) <==> StructureOk(obj, env, obj[x]);
  }

  /** A full verification passes exactly when the one that skips scripts passes
      and every script passes. */
  lemma TrustSplit(obj: Object, env: Env)
    requires Closed(obj) && !env.skipScripts
    ensures Passes(obj, env) <==> Passes(obj, env.(skipScripts := true)) && AllScripts(obj, env)
  {
    forall x | x in obj
      ensures Good(obj, env, x) <==>
              Good(obj, env.(skipScripts := true), x) &&
              (obj[x].path.None? && StructureOk(obj, env, obj[x]) ==> ScriptsOk(obj, env, x))
    {
      GoodSplit(obj, env, x);
    }
  }

  /** Scripts need judging once per network: a full pass under one tracker and
      finality policy, and a pass without scripts under another, make a full pass
      under the other. */
  lemma TrustTransfers(obj: Object, env: Env, env': Env)
    requires Closed(obj) && !env.skipScripts && !env'.skipScripts
    requires env.scripts == env'.scripts && env.genesis == env'.genesis
    requires Passes(obj, env) && Passes(obj, env'.(skipScripts := true))
    ensures Passes(obj, env')
  {
    forall t, x | Tip(obj, t) && Reaches(obj, t, x) ensures x in obj && Good(obj, env', x) {
      assert Good(obj, env, x) && Good(obj, env'.(skipScripts := true), x);
      GoodSplit(obj, env', x);
      if obj[x].path.None? {
        assert TxPasses(obj, env, x);
        SameScripts(obj, env, env', x);
      }
    }
  }
}
