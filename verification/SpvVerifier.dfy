/** Verifier.verify and its verdict (pkg/spv/spv.go). */
module SpvVerifier {
  import opened Bytes
  import opened Spv
  import opened SpvGraph

  datatype Result = ResultOK | ResultRefused | ResultError

  datatype Reason =
    | ReasonNone | ReasonParse | ReasonMerkle | ReasonScript | ReasonStructure
    | ReasonTracker | ReasonNotYet | ReasonDeadline

  datatype Verdict = Verdict(result: Result, reason: Reason)

  /** classify: whatever the tracker could not answer is no refusal. */
  function Classify(expired: bool, failed: bool, notYet: bool, err: CheckError): (v: Verdict)
    requires err != Nil
    ensures v.result == ResultRefused <==> !expired && !failed && !notYet
    ensures v.result == ResultRefused ==>
              && (v.reason == ReasonScript <==> err == ScriptFailed)
              && (v.reason == ReasonMerkle <==> err == InvalidPath)
    ensures v.reason == ReasonDeadline <==> expired
    ensures v.reason == ReasonTracker <==> failed && !expired
    ensures v.result != ResultOK && v.reason != ReasonNone && v.reason != ReasonParse
  {
    if expired then Verdict(ResultError, ReasonDeadline)
    else if failed then Verdict(ResultError, ReasonTracker)
    else if notYet then Verdict(ResultError, ReasonNotYet)
    else if err == ScriptFailed then Verdict(ResultRefused, ReasonScript)
    else if err == InvalidPath then Verdict(ResultRefused, ReasonMerkle)
    else Verdict(ResultRefused, ReasonStructure)
  }

  /** Every transaction of the object once, in whatever order the map yields. */
  ghost predicate Order(obj: Object, order: seq<Hash>)
  {
    (forall x :: x in obj <==> x in order) && forall i, j :: 0 <= i < j < |order| ==> order[i] != order[j]
  }

  /** The txids that transactions in the object name as sources. */
  method SpentTxids(obj: Object, order: seq<Hash>) returns (spent: set<Hash>)
    requires Order(obj, order)
    ensures forall x :: x in spent <==> Spent(obj, x)
  {
    spent := {};
    for k := 0 to |order|
      invariant forall x :: x in spent ==> Spent(obj, x)
      invariant forall j, i :: 0 <= j < k && 0 <= i < |obj[order[j]].inputs| && obj[order[j]].inputs[i].sourceTxid.Some? ==>
                  obj[order[j]].inputs[i].sourceTxid.value in spent
    {
      var ins := obj[order[k]].inputs;
      for n := 0 to |ins|
        invariant forall x :: x in spent ==> Spent(obj, x)
        invariant forall j, i :: 0 <= j < k && 0 <= i < |obj[order[j]].inputs| && obj[order[j]].inputs[i].sourceTxid.Some? ==>
                    obj[order[j]].inputs[i].sourceTxid.value in spent
        invariant forall i :: 0 <= i < n && ins[i].sourceTxid.Some? ==> ins[i].sourceTxid.value in spent
      {
        if ins[n].sourceTxid.Some? {
          spent := spent + {ins[n].sourceTxid.value};
        }
      }
    }
    forall x | Spent(obj, x) ensures x in spent {
      var y, i :| y in obj && 0 <= i < |obj[y].inputs| && obj[y].inputs[i].sourceTxid == Some(x);
      var j :| 0 <= j < |order| && order[j] == y;
    }
  }

  /** verify on a parsed object. OK is exactly Passes, so it does not depend on the
      visiting order. A refusal of an object with transactions stands whatever the
      tracker left open: it would not pass under any tracker that gives the answers
      this one gave. And when the tracker leaves nothing open and the deadline has not
      passed, there is no error: what does not pass is refused. */
  method Verify(obj: Object, env: Env, order: seq<Hash>, expired: bool) returns (v: Verdict)
    requires Closed(obj) && WellLinked(obj) && Order(obj, order)
    ensures v.result == ResultOK <==> Passes(obj, env)
    ensures v.reason == ReasonParse <==> obj == map[]
    ensures v.result == ResultRefused && obj != map[] ==>
              !expired && forall env' :: MayBecome(env, env') ==> !Passes(obj, env')
    ensures !expired && Decisive(env) ==> v.result != ResultError
  {
    hide Reaches, Spent, Good, Hopeless, Decisive, MayBecome;
    var spent := SpentTxids(obj, order);
    if |order| == 0 {
      assert obj == map[];
      return Verdict(ResultRefused, ReasonParse);
    }
    assert order[0] in obj;
    var g := new Graph(obj, env);
    for k := 0 to |order|
      invariant g.obj == obj && g.env == env && g.Valid() && fresh(g)
      invariant forall j, x :: 0 <= j < k && !Spent(obj, order[j]) && Reaches(obj, order[j], x) ==> x in obj && Good(obj, env, x)
    {
      var t := order[k];
      if t !in spent {
        var err := g.Check(t);
        if err != Nil {
          v := Classify(expired, g.failed, g.notYet, err);
          assert Tip(obj, t);
          if g.Clear() {
            NeverFromTip(obj, env, t);
          }
          return;
        }
      }
    }
    forall t, x | Tip(obj, t) && Reaches(obj, t, x) ensures x in obj && Good(obj, env, x) {
      var j :| 0 <= j < |order| && order[j] == t;
    }
    v := Verdict(ResultOK, ReasonNone);
  }

  lemma NeverFromTip(obj: Object, env: Env, t: Hash)
    requires Closed(obj) && Tip(obj, t) && Hopeless(obj, env, t)
    ensures forall env' :: MayBecome(env, env') ==> !Passes(obj, env')
  {
    forall env' | MayBecome(env, env')
      ensures !Passes(obj, env')
    {
      HopelessFails(obj, env, t, env');
    }
  }
}
