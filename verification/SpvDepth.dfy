/** The memoised ancestry depth of an object (pkg/spv/spv.go, work). */
module SpvDepth {
  import opened Bytes
  import opened Spv

  type Parents = map<Hash, seq<Hash>>

  function ParentsOf(parents: Parents, x: Hash): seq<Hash>
  {
    if x in parents then parents[x] else []
  }

  /** A chain of in-object parents, child first. */
  predicate Chain(parents: Parents, c: seq<Hash>)
  {
    c != [] && forall i :: 0 <= i < |c| - 1 ==> c[i + 1] in ParentsOf(parents, c[i])
  }

  /** d is the length of the longest chain of parents below x. */
  ghost predicate IsDepth(parents: Parents, x: Hash, d: int)
  {
    && (exists c :: Chain(parents, c) && c[0] == x && |c| == d + 1)
    && (forall c :: Chain(parents, c) && c[0] == x ==> |c| <= d + 1)
  }

  /** A child ranks below its parents: the links form no cycle. */
  ghost predicate LinksRanked(parents: Parents, rank: map<Hash, nat>)
  {
    forall x, p :: p in ParentsOf(parents, x) ==> Lower(rank, x, p)
  }

  predicate Lower(rank: map<Hash, nat>, x: Hash, p: Hash)
  {
    x in rank && p in rank && rank[x] < rank[p]
  }

  /** The hashes the walk can meet. */
  ghost predicate Universe(parents: Parents, all: set<Hash>)
  {
    forall x, p :: p in ParentsOf(parents, x) ==> x in all && p in all
  }

  /** best is one more than the deepest of the first k parents, 0 if none. */
  ghost predicate BestOf(parents: Parents, ps: seq<Hash>, k: nat, best: nat)
    requires k <= |ps|
  {
    && (forall i, d :: 0 <= i < k && IsDepth(parents, ps[i], d) ==> d + 1 <= best)
    && (best > 0 ==> exists i :: 0 <= i < k && IsDepth(parents, ps[i], best - 1))
  }

  lemma DepthUnique(parents: Parents, x: Hash, d: int, d': int)
    requires IsDepth(parents, x, d) && IsDepth(parents, x, d')
    ensures d == d'
  {
    var c :| Chain(parents, c) && c[0] == x && |c| == d + 1;
    var c' :| Chain(parents, c') && c'[0] == x && |c'| == d' + 1;
  }

  lemma BestStep(parents: Parents, ps: seq<Hash>, k: nat, best: nat, d: nat)
    requires k < |ps| && BestOf(parents, ps, k, best) && IsDepth(parents, ps[k], d)
    ensures BestOf(parents, ps, k + 1, if d + 1 > best then d + 1 else best)
  {
    var best' := if d + 1 > best then d + 1 else best;
    forall i, e | 0 <= i < k + 1 && IsDepth(parents, ps[i], e) ensures e + 1 <= best' {
      if i == k {
        DepthUnique(parents, ps[k], d, e);
      }
    }
  }

  /** The deepest parent decides. */
  lemma DepthFromParents(parents: Parents, x: Hash, best: nat)
    requires BestOf(parents, ParentsOf(parents, x), |ParentsOf(parents, x)|, best)
    requires Known(parents, ParentsOf(parents, x), |ParentsOf(parents, x)|)
    ensures IsDepth(parents, x, best)
  {
    var ps := ParentsOf(parents, x);
    forall c | Chain(parents, c) && c[0] == x ensures |c| <= best + 1 {
      if |c| > 1 {
        assert c[0 + 1] in ps;
        var i :| 0 <= i < |ps| && ps[i] == c[1];
        assert HasDepth(parents, ps[i]);
        var d: nat :| IsDepth(parents, ps[i], d);
        ChainTail(parents, c);
      }
    }
    if best == 0 {
      assert Chain(parents, [x]);
    } else {
      var i :| 0 <= i < |ps| && IsDepth(parents, ps[i], best - 1);
      var c :| Chain(parents, c) && c[0] == ps[i] && |c| == best;
      ChainCons(parents, x, c);
    }
  }

  lemma ChainTail(parents: Parents, c: seq<Hash>)
    requires Chain(parents, c) && |c| > 1
    ensures Chain(parents, c[1..])
  {
    forall i | 0 <= i < |c[1..]| - 1 ensures c[1..][i + 1] in ParentsOf(parents, c[1..][i]) {
      assert c[(i + 1) + 1] in ParentsOf(parents, c[i + 1]);
    }
  }

  lemma ChainCons(parents: Parents, x: Hash, c: seq<Hash>)
    requires Chain(parents, c) && c[0] in ParentsOf(parents, x)
    ensures Chain(parents, [x] + c) && ([x] + c)[0] == x
  {
    var e := [x] + c;
    forall i | 0 <= i < |e| - 1 ensures e[i + 1] in ParentsOf(parents, e[i]) {
      if i > 0 {
        assert c[(i - 1) + 1] in ParentsOf(parents, c[i - 1]);
      }
    }
  }

  const VISITING := -1

  class Depths {
    const parents: Parents
    ghost const all: set<Hash>
    var memo: map<Hash, int>

    constructor (parents: Parents, ghost all: set<Hash>)
      requires Universe(parents, all)
      ensures this.parents == parents && this.all == all && memo == map[] && fresh(this)
    {
      this.parents, this.all, memo := parents, all, map[];
    }

    /** walk. It ends whatever the links are; when they form no cycle its answer
        is the longest parent chain, whatever was visited before. */
    method Walk(x: Hash, ghost rank: map<Hash, nat>) returns (d: nat)
      requires Universe(parents, all) && x in all && memo.Keys <= all && Marks(memo)
      modifies this
      ensures memo.Keys <= all && Marks(memo) && Extends(old(memo), memo)
      ensures Right(parents, rank, old(memo), x) ==> IsDepth(parents, x, d) && Answers(parents, memo)
      decreases Unvisited(all, memo), 0
    {
      hide IsDepth, BestOf, Universe, Known, Right, Answers, Extends, RightParents;
      if x in memo {
        ExtendsSelf(memo);
        if memo[x] == VISITING {
          NotUnderWay(parents, rank, memo, x);
          return 0;
        }
        Recalled(parents, rank, memo, x);
        return memo[x];
      }
      Smaller(all, memo, x);
      MarkStarts(parents, rank, memo, x);
      memo := memo[x := VISITING];
      d := Deepest(x, rank);
      if Right(parents, rank, old(memo), x) {
        DepthFromParents(parents, x, d);
        AnswerKept(parents, memo, x, d);
      }
      MarkEnds(old(memo), memo, x, d);
      memo := memo[x := d];
    }

    /** The loop of walk over the parents of x, which is under way. */
    method Deepest(x: Hash, ghost rank: map<Hash, nat>) returns (best: nat)
      requires Universe(parents, all) && memo.Keys <= all && Marks(memo)
      modifies this
      ensures memo.Keys <= all && Marks(memo) && Extends(old(memo), memo)
      ensures RightParents(parents, rank, old(memo), x) ==>
                var ps := ParentsOf(parents, x);
                Answers(parents, memo) && BestOf(parents, ps, |ps|, best) && Known(parents, ps, |ps|)
      decreases Unvisited(all, memo), 1
    {
      hide IsDepth, BestOf, Right, Answers, Extends, RightParents, Known, Universe, Marks, Progress, Unvisited;
      var ps := ParentsOf(parents, x);
      best := 0;
      ProgressStarts(parents, rank, memo, x);
      for k := 0 to |ps|
        invariant memo.Keys <= all && Marks(memo)
        invariant Progress(parents, rank, old(memo), memo, x, k, best)
      {
        NoMoreLeft(parents, rank, all, old(memo), memo, x, k, best);
        InUniverse(parents, all, x, ps[k]);
        ghost var before := memo;
        var d := Walk(ps[k], rank);
        ProgressStep(parents, rank, old(memo), before, memo, x, k, best, d);
        if d + 1 > best {
          best := d + 1;
        }
      }
      ProgressEnds(parents, rank, old(memo), memo, x, best);
    }
  }

  /** The loop over the parents of x has been through the first k. */
  ghost predicate Progress(parents: Parents, rank: map<Hash, nat>, m0: map<Hash, int>, m: map<Hash, int>, x: Hash, k: nat, best: nat)
  {
    && k <= |ParentsOf(parents, x)|
    && Extends(m0, m)
    && (RightParents(parents, rank, m0, x) ==>
          && RightParents(parents, rank, m, x)
          && BestOf(parents, ParentsOf(parents, x), k, best)
          && Known(parents, ParentsOf(parents, x), k))
  }

  lemma ProgressStarts(parents: Parents, rank: map<Hash, nat>, m: map<Hash, int>, x: Hash)
    ensures Progress(parents, rank, m, m, x, 0, 0)
  {
    NoneBest(parents, ParentsOf(parents, x));
  }

  lemma ProgressStep(parents: Parents, rank: map<Hash, nat>, m0: map<Hash, int>, m: map<Hash, int>, m': map<Hash, int>,
                     x: Hash, k: nat, best: nat, d: nat)
    requires Progress(parents, rank, m0, m, x, k, best) && k < |ParentsOf(parents, x)| && Extends(m, m')
    requires Right(parents, rank, m, ParentsOf(parents, x)[k]) ==> IsDepth(parents, ParentsOf(parents, x)[k], d) && Answers(parents, m')
    ensures Progress(parents, rank, m0, m', x, k + 1, if d + 1 > best then d + 1 else best)
  {
    hide IsDepth, BestOf, Right, Answers, Extends, RightParents, Known;
    ExtendsOn(m0, m, m');
    if RightParents(parents, rank, m0, x) {
      OneParent(parents, rank, m, x, ParentsOf(parents, x)[k]);
      StillRight(parents, rank, m, m', x);
      BestStep(parents, ParentsOf(parents, x), k, best, d);
      KnownStep(parents, ParentsOf(parents, x), k, d);
    }
  }

  lemma ProgressEnds(parents: Parents, rank: map<Hash, nat>, m0: map<Hash, int>, m: map<Hash, int>, x: Hash, best: nat)
    requires Progress(parents, rank, m0, m, x, |ParentsOf(parents, x)|, best)
    ensures Extends(m0, m)
    ensures RightParents(parents, rank, m0, x) ==>
              var ps := ParentsOf(parents, x);
              Answers(parents, m) && BestOf(parents, ps, |ps|, best) && Known(parents, ps, |ps|)
  {
    hide IsDepth, BestOf, Extends, Known;
  }

  ghost predicate Marks(m: map<Hash, int>)
  {
    forall y :: y in m ==> m[y] >= VISITING
  }

  /** Old entries stand, new ones are answers. */
  ghost predicate Extends(m: map<Hash, int>, m': map<Hash, int>)
  {
    && (forall y :: y in m ==> y in m' && m'[y] == m[y])
    && (forall y :: y in m' && y !in m ==> m'[y] != VISITING)
  }

  /** Every answer in the memo is right. */
  ghost predicate Answers(parents: Parents, m: map<Hash, int>)
  {
    forall y :: y in m && m[y] != VISITING ==> IsDepth(parents, y, m[y])
  }

  /** What is under way ranks below x. */
  ghost predicate Below(rank: map<Hash, nat>, m: map<Hash, int>, x: Hash)
  {
    x in rank && forall y :: y in m && m[y] == VISITING ==> y in rank && rank[y] < rank[x]
  }

  /** The walk of x starts right. */
  ghost predicate Right(parents: Parents, rank: map<Hash, nat>, m: map<Hash, int>, x: Hash)
  {
    LinksRanked(parents, rank) && Answers(parents, m) && Below(rank, m, x)
  }

  ghost predicate RightParents(parents: Parents, rank: map<Hash, nat>, m: map<Hash, int>, x: Hash)
  {
    LinksRanked(parents, rank) && Answers(parents, m) && forall p :: p in ParentsOf(parents, x) ==> Below(rank, m, p)
  }

  lemma ExtendsSelf(m: map<Hash, int>)
    ensures Extends(m, m)
  {
  }

  lemma ExtendsOn(a: map<Hash, int>, b: map<Hash, int>, c: map<Hash, int>)
    requires Extends(a, b) && Extends(b, c)
    ensures Extends(a, c) && a.Keys <= c.Keys
  {
  }

  lemma NotUnderWay(parents: Parents, rank: map<Hash, nat>, m: map<Hash, int>, x: Hash)
    requires x in m && m[x] == VISITING
    ensures !Right(parents, rank, m, x)
  {
  }

  lemma Recalled(parents: Parents, rank: map<Hash, nat>, m: map<Hash, int>, x: Hash)
    requires x in m && m[x] != VISITING
    ensures Right(parents, rank, m, x) ==> IsDepth(parents, x, m[x]) && Answers(parents, m)
  {
  }

  lemma MarkStarts(parents: Parents, rank: map<Hash, nat>, m: map<Hash, int>, x: Hash)
    requires x !in m
    ensures Right(parents, rank, m, x) ==> RightParents(parents, rank, m[x := VISITING], x)
  {
    hide IsDepth;
  }

  lemma MarkEnds(m: map<Hash, int>, m': map<Hash, int>, x: Hash, d: nat)
    requires x !in m && Extends(m[x := VISITING], m')
    ensures Extends(m, m'[x := d])
  {
  }

  lemma AnswerKept(parents: Parents, m: map<Hash, int>, x: Hash, d: nat)
    requires Answers(parents, m) && IsDepth(parents, x, d)
    ensures Answers(parents, m[x := d])
  {
    hide IsDepth;
  }

  lemma OneParent(parents: Parents, rank: map<Hash, nat>, m: map<Hash, int>, x: Hash, p: Hash)
    requires RightParents(parents, rank, m, x) && p in ParentsOf(parents, x)
    ensures Right(parents, rank, m, p)
  {
  }

  lemma StillRight(parents: Parents, rank: map<Hash, nat>, m: map<Hash, int>, m': map<Hash, int>, x: Hash)
    requires RightParents(parents, rank, m, x) && Extends(m, m') && Answers(parents, m')
    ensures RightParents(parents, rank, m', x)
  {
    hide IsDepth, Answers;
    forall p | p in ParentsOf(parents, x) ensures Below(rank, m', p) {
      assert Below(rank, m, p);
    }
  }

  ghost predicate Known(parents: Parents, ps: seq<Hash>, k: nat)
    requires k <= |ps|
  {
    forall i :: 0 <= i < k ==> HasDepth(parents, ps[i])
  }

  ghost predicate HasDepth(parents: Parents, x: Hash)
  {
    exists d: nat :: IsDepth(parents, x, d)
  }

  lemma KnownStep(parents: Parents, ps: seq<Hash>, k: nat, d: nat)
    requires k < |ps| && Known(parents, ps, k) && IsDepth(parents, ps[k], d)
    ensures Known(parents, ps, k + 1)
  {
    assert HasDepth(parents, ps[k]);
  }

  lemma InUniverse(parents: Parents, all: set<Hash>, x: Hash, p: Hash)
    requires Universe(parents, all) && p in ParentsOf(parents, x)
    ensures x in all && p in all
  {
  }

  lemma NoneBest(parents: Parents, ps: seq<Hash>)
    ensures BestOf(parents, ps, 0, 0) && Known(parents, ps, 0)
  {
  }

  /** How many hashes have no memo entry yet. */
  ghost function Unvisited(all: set<Hash>, m: map<Hash, int>): nat
  {
    |all - m.Keys|
  }

  lemma Smaller(all: set<Hash>, m: map<Hash, int>, x: Hash)
    requires x in all && x !in m
    ensures Unvisited(all, m[x := VISITING]) < Unvisited(all, m)
  {
    assert all - m.Keys == (all - m[x := VISITING].Keys) + {x};
  }

  lemma NoMoreLeft(parents: Parents, rank: map<Hash, nat>, all: set<Hash>, m0: map<Hash, int>, m: map<Hash, int>, x: Hash,
                   k: nat, best: nat)
    requires Progress(parents, rank, m0, m, x, k, best)
    ensures Unvisited(all, m) <= Unvisited(all, m0)
  {
    assert all - m0.Keys == (all - m.Keys) + (all * (m.Keys - m0.Keys));
  }

  // ------------------------------------------------------------ the object's depth

  /** The in-object sources of a transaction, in input order. */
  function Sources(obj: Object, ins: seq<Input>): seq<Hash>
  {
    if ins == [] then []
    else
      var s := ins[|ins| - 1].sourceTxid;
      Sources(obj, ins[..|ins| - 1]) + (if s.Some? && s.value in obj then [s.value] else [])
  }

  /** parents as work builds it: an entry only where there is a parent. */
  ghost predicate ParentMap(obj: Object, parents: Parents)
  {
    && (forall x :: x in parents ==> x in obj && parents[x] != [])
    && (forall x :: x in obj ==> ParentsOf(parents, x) == Sources(obj, obj[x].inputs))
  }

  /** The loop over one transaction's inputs. */
  method AddParents(obj: Object, before: Parents, x: Hash) returns (parents: Parents)
    requires x in obj && x !in before
    ensures parents.Keys <= before.Keys + {x}
    ensures forall y :: y in before ==> y in parents && parents[y] == before[y]
    ensures x in parents ==> parents[x] != []
    ensures ParentsOf(parents, x) == Sources(obj, obj[x].inputs)
  {
    parents := before;
    var ins := obj[x].inputs;
    for i := 0 to |ins|
      invariant parents.Keys <= before.Keys + {x}
      invariant forall y :: y in before ==> y in parents && parents[y] == before[y]
      invariant x in parents ==> parents[x] != []
      invariant ParentsOf(parents, x) == Sources(obj, ins[..i])
    {
      assert ins[..i + 1][..i] == ins[..i];
      var s := ins[i].sourceTxid;
      if s.Some? && s.value in obj {
        parents := parents[x := ParentsOf(parents, x) + [s.value]];
      }
    }
    assert ins[..|ins|] == ins;
  }

  method BuildParents(obj: Object) returns (parents: Parents)
    ensures ParentMap(obj, parents)
    ensures Universe(parents, obj.Keys)
  {
    hide Sources;
    parents := map[];
    var left := obj.Keys;
    while left != {}
      invariant left <= obj.Keys
      invariant forall x :: x in parents ==> x in obj && x !in left && parents[x] != []
      invariant forall x :: x in obj && x !in left ==> ParentsOf(parents, x) == Sources(obj, obj[x].inputs)
      decreases left
    {
      var x :| x in left;
      parents := AddParents(obj, parents, x);
      left := left - {x};
    }
    forall x, p | p in ParentsOf(parents, x) ensures x in obj && p in obj {
      SourcesInObject(obj, obj[x].inputs, p);
    }
  }

  lemma {:induction false} SourcesInObject(obj: Object, ins: seq<Input>, p: Hash)
    requires p in Sources(obj, ins)
    ensures p in obj && exists i :: 0 <= i < |ins| && ins[i].sourceTxid == Some(p)
  {
    var s := ins[|ins| - 1].sourceTxid;
    if s.Some? && s.value == p && p in obj {
      assert ins[|ins| - 1].sourceTxid == Some(p);
    } else {
      var rest := ins[..|ins| - 1];
      SourcesInObject(obj, rest, p);
      var i :| 0 <= i < |rest| && rest[i].sourceTxid == Some(p);
      assert ins[i].sourceTxid == Some(p);
    }
  }

  /** The spends of an object in which they form no cycle rank its parent links. */
  lemma RanksLinks(obj: Object, parents: Parents, rank: map<Hash, nat>)
    requires ParentMap(obj, parents) && Ranked(obj, rank)
    ensures LinksRanked(parents, rank)
  {
    forall x, p | p in ParentsOf(parents, x)
      ensures Lower(rank, x, p)
    {
      SourcesInObject(obj, obj[x].inputs, p);
      assert Spends(obj, x, p);
    }
  }

  /** A chain of in-object spends, spender first. */
  predicate SpendChain(obj: Object, c: seq<Hash>)
  {
    c != [] && forall i :: 0 <= i < |c| - 1 ==> SpendLink(obj, c[i], c[i + 1])
  }

  predicate SpendLink(obj: Object, x: Hash, p: Hash)
  {
    x in obj && p in obj && Spends(obj, x, p)
  }

  lemma {:induction false} SourceNamed(obj: Object, ins: seq<Input>, i: nat, p: Hash)
    requires i < |ins| && ins[i].sourceTxid == Some(p) && p in obj
    ensures p in Sources(obj, ins)
  {
    if i == |ins| - 1 {
    } else {
      SourceNamed(obj, ins[..|ins| - 1], i, p);
    }
  }

  /** The parents work links are exactly the in-object sources. */
  lemma LinksExact(obj: Object, parents: Parents, x: Hash, p: Hash)
    requires ParentMap(obj, parents)
    ensures p in ParentsOf(parents, x) <==> x in obj && p in obj && Spends(obj, x, p)
  {
    if p in ParentsOf(parents, x) {
      SourcesInObject(obj, obj[x].inputs, p);
    }
    if x in obj && p in obj && Spends(obj, x, p) {
      var i :| 0 <= i < |obj[x].inputs| && obj[x].inputs[i].sourceTxid == Some(p);
      SourceNamed(obj, obj[x].inputs, i, p);
    }
  }

  lemma ChainsExact(obj: Object, parents: Parents, c: seq<Hash>)
    requires ParentMap(obj, parents)
    ensures Chain(parents, c) <==> SpendChain(obj, c)
  {
    hide ParentMap, ParentsOf, Spends;
    forall i | 0 <= i < |c| - 1
      ensures c[i + 1] in ParentsOf(parents, c[i]) <==> SpendLink(obj, c[i], c[i + 1])
    {
      LinksExact(obj, parents, c[i], c[i + 1]);
    }
    if SpendChain(obj, c) {
      forall i | 0 <= i < |c| - 1
        ensures c[i + 1] in ParentsOf(parents, c[i])
      {
        assert SpendLink(obj, c[i], c[i + 1]);
      }
    }
  }

  /** The depth work reports: on an object with no cycle of spends, no chain of
      in-object spends is longer, and if any transaction spends another of the object some
      chain is that long. */
  method ObjectDepth(obj: Object) returns (depth: nat, parents: Parents)
    ensures ParentMap(obj, parents)
    ensures Acyclic(obj) ==>
              && (forall c :: SpendChain(obj, c) ==> |c| <= depth + 1)
              && (depth > 0 ==> exists c :: SpendChain(obj, c) && |c| == depth + 1)
  {
    hide IsDepth, Chain, Universe, Right, Answers, Extends, Ranked, LinksRanked, Settled, ParentMap, SpendChain;
    parents := BuildParents(obj);
    ParentsHeld(obj, parents);
    ghost var rank: map<Hash, nat> := map[];
    if Acyclic(obj) {
      rank :| Ranked(obj, rank);
      RanksLinks(obj, parents, rank);
    }
    var g := new Depths(parents, obj.Keys);
    depth := 0;
    var left := parents.Keys;
    SettledStarts(parents, rank);
    while left != {}
      invariant left <= parents.Keys
      invariant g.parents == parents && g.all == obj.Keys && g.memo.Keys <= obj.Keys && Marks(g.memo) && fresh(g)
      invariant Settled(parents, rank, g.memo, parents.Keys - left, depth)
      decreases left
    {
      var x :| x in left;
      ghost var before := g.memo;
      SettledRight(parents, rank, g.memo, parents.Keys - left, depth, x);
      var d := g.Walk(x, rank);
      SettledStep(parents, rank, before, g.memo, parents.Keys - left, depth, x, d);
      if d > depth {
        depth := d;
      }
      assert parents.Keys - (left - {x}) == parents.Keys - left + {x};
      left := left - {x};
    }
    if LinksRanked(parents, rank) {
      SettledEnds(parents, rank, g.memo, parents.Keys - left, depth);
      forall c
        ensures Chain(parents, c) <==> SpendChain(obj, c)
      {
        ChainsExact(obj, parents, c);
      }
    }
  }

  lemma ParentsHeld(obj: Object, parents: Parents)
    requires ParentMap(obj, parents)
    ensures parents.Keys <= obj.Keys && forall x :: x in parents ==> parents[x] != []
  {
  }

  /** Between two walks nothing is under way, and depth is the deepest so far. */
  ghost predicate Settled(parents: Parents, rank: map<Hash, nat>, m: map<Hash, int>, done: set<Hash>, depth: nat)
  {
    && (forall y :: y in m ==> m[y] != VISITING)
    && (LinksRanked(parents, rank) ==>
          && Answers(parents, m)
          && (forall x :: x in done ==> exists d: nat :: d <= depth && IsDepth(parents, x, d))
          && (depth == 0 || exists x :: IsDepth(parents, x, depth)))
  }

  lemma SettledStarts(parents: Parents, rank: map<Hash, nat>)
    ensures Settled(parents, rank, map[], {}, 0)
    ensures parents.Keys - parents.Keys == {}
  {
  }

  lemma SettledRight(parents: Parents, rank: map<Hash, nat>, m: map<Hash, int>, done: set<Hash>, depth: nat, x: Hash)
    requires Settled(parents, rank, m, done, depth) && x in parents && parents[x] != []
    ensures LinksRanked(parents, rank) ==> Right(parents, rank, m, x)
  {
    var p := parents[x][0];
    assert p in ParentsOf(parents, x);
    assert LinksRanked(parents, rank) ==> Lower(rank, x, p);
  }

  lemma SettledStep(parents: Parents, rank: map<Hash, nat>, m: map<Hash, int>, m': map<Hash, int>, done: set<Hash>,
                    depth: nat, x: Hash, d: nat)
    requires Settled(parents, rank, m, done, depth) && Extends(m, m')
    requires LinksRanked(parents, rank) ==> IsDepth(parents, x, d) && Answers(parents, m')
    ensures Settled(parents, rank, m', done + {x}, if d > depth then d else depth)
  {
    hide IsDepth, Answers;
    var depth' := if d > depth then d else depth;
    if LinksRanked(parents, rank) {
      forall y | y in done + {x} ensures exists e: nat :: e <= depth' && IsDepth(parents, y, e) {
        if y in done {
          var e: nat :| e <= depth && IsDepth(parents, y, e);
        }
      }
    }
  }

  lemma SettledEnds(parents: Parents, rank: map<Hash, nat>, m: map<Hash, int>, done: set<Hash>, depth: nat)
    requires Settled(parents, rank, m, done, depth) && done == parents.Keys && LinksRanked(parents, rank)
    ensures forall c :: Chain(parents, c) ==> |c| <= depth + 1
    ensures depth > 0 ==> exists c :: Chain(parents, c) && |c| == depth + 1
  {
    hide Chain;
    forall c | Chain(parents, c) ensures |c| <= depth + 1 {
      ChainBounded(parents, c, depth);
    }
    if depth > 0 {
      var x :| IsDepth(parents, x, depth);
      DepthChain(parents, x, depth);
    }
  }

  lemma ChainBounded(parents: Parents, c: seq<Hash>, depth: nat)
    requires Chain(parents, c)
    requires forall x :: x in parents ==> exists d: nat :: d <= depth && IsDepth(parents, x, d)
    ensures |c| <= depth + 1
  {
    if |c| > 1 {
      assert c[0 + 1] in ParentsOf(parents, c[0]);
      var d: nat :| d <= depth && IsDepth(parents, c[0], d);
    }
  }

  lemma DepthChain(parents: Parents, x: Hash, d: nat)
    requires IsDepth(parents, x, d)
    ensures exists c :: Chain(parents, c) && |c| == d + 1
  {
  }
}
