/**
  What the publish queue promises a publisher (uptunnel/queue.go, Publish): a record is
  enqueued whenever there is room for it when its publisher tries, and shed only after an
  attempt that found none.
*/
module PublishLaws {
  import opened Bytes
  import opened PublishQueue
  import Sums

  /** There is room for a record of size bytes, by count and by bytes. */
  predicate Roomy(q: Queue, o: Options, size: nat)
  {
    |q.ch| < o.capacity && (o.maxBytes == 0 || q.bytes == 0 || q.bytes + size <= o.maxBytes)
  }

  /** p's record has been put on the channel, and nothing else has changed but the byte
      count, which has it, the count of records enqueued and, if p took one, the signal. */
  predicate Enqueued(q: Queue, q': Queue, p: nat, size: nat)
  {
    && p < |q.pubs| && q'.pubs == q.pubs[p := Idle]
    && q'.ch == q.ch + [size] && q'.bytes == q.bytes + size
    && q'.enqueued == q.enqueued + 1 && q'.shed == q.shed && q'.taken == q.taken && q'.drain == q.drain
  }

  lemma Cons(q: Queue, o: Options, a: Action, rest: seq<Action>)
    requires Enabled(q, o, a) && EnabledRun(Apply(q, o, a), o, rest)
    ensures EnabledRun(q, o, [a] + rest) && Run(q, o, [a] + rest) == Run(Apply(q, o, a), o, rest)
  {
    assert ([a] + rest)[1..] == rest;
  }

  lemma Nil(q: Queue, o: Options)
    ensures EnabledRun(q, o, []) && Run(q, o, []) == q
  {
  }

  /** From its attempt on. */
  lemma Tries(q: Queue, o: Options, p: nat) returns (q': Queue)
    requires p < |q.pubs| && q.pubs[p].Trying? && q.bytes >= 0 && Roomy(q, o, q.pubs[p].size)
    ensures var run := [Load(p)] + ([Swap(p)] + ([Put(p)] + ([Count(p)] + [])));
            EnabledRun(q, o, run) && Run(q, o, run) == q'
    ensures Enqueued(q, q', p, q.pubs[p].size) && q'.room == q.room
  {
    hide EnabledRun, Run;
    var q1 := Apply(q, o, Load(p));
    var q2 := Apply(q1, o, Swap(p));
    var q3 := Apply(q2, o, Put(p));
    q' := Apply(q3, o, Count(p));
    Nil(q', o);
    Cons(q3, o, Count(p), []);
    Cons(q2, o, Put(p), [Count(p)] + []);
    Cons(q1, o, Swap(p), [Put(p)] + ([Count(p)] + []));
    Cons(q, o, Load(p), [Swap(p)] + ([Put(p)] + ([Count(p)] + [])));
  }

  /** A publisher that finds room enqueues its record by its own steps alone. */
  lemma NewPublishes(q: Queue, o: Options, p: nat, size: nat)
    requires p < |q.pubs| && q.pubs[p].Idle? && q.bytes >= 0 && Roomy(q, o, size)
    ensures var run := [Publish(p, size), Load(p), Swap(p), Put(p), Count(p)];
            EnabledRun(q, o, run) && Enqueued(q, Run(q, o, run), p, size)
  {
    hide EnabledRun, Run;
    var q1 := Apply(q, o, Publish(p, size));
    var q' := Tries(q1, o, p);
    var rest := [Load(p)] + ([Swap(p)] + ([Put(p)] + ([Count(p)] + [])));
    Cons(q, o, Publish(p, size), rest);
    assert [Publish(p, size), Load(p), Swap(p), Put(p), Count(p)] == [Publish(p, size)] + rest;
  }

  /** So does a parked publisher whose signal is closed: it wakes, takes a new signal and
      tries again. */
  lemma WokenPublishes(q: Queue, o: Options, p: nat)
    requires o.waits && p < |q.pubs| && q.pubs[p].Parked? && Closed(q, q.pubs[p].room)
    requires q.bytes >= 0 && Roomy(q, o, q.pubs[p].size)
    ensures var run := [Wake(p), Signal(p), Load(p), Swap(p), Put(p), Count(p)];
            EnabledRun(q, o, run) && Enqueued(q, Run(q, o, run), p, q.pubs[p].size)
  {
    hide EnabledRun, Run;
    var q1 := Apply(q, o, Wake(p));
    var q2 := Apply(q1, o, Signal(p));
    var q' := Tries(q2, o, p);
    var rest := [Load(p)] + ([Swap(p)] + ([Put(p)] + ([Count(p)] + [])));
    Cons(q1, o, Signal(p), rest);
    Cons(q, o, Wake(p), [Signal(p)] + rest);
    assert [Wake(p), Signal(p), Load(p), Swap(p), Put(p), Count(p)] == [Wake(p)] + ([Signal(p)] + rest);
  }

  /** In every reachable state, a parked publisher with room for its record and a closed
      signal enqueues it by its own steps alone. */
  lemma WokenPublishesReachable(publishers: nat, o: Options, run: seq<Action>, p: nat)
    requires o.waits && EnabledRun(Start(publishers), o, run)
    requires var q := Run(Start(publishers), o, run);
             p < |q.pubs| && q.pubs[p].Parked? && Closed(q, q.pubs[p].room) && Roomy(q, o, q.pubs[p].size)
    ensures var q := Run(Start(publishers), o, run);
            var more := [Wake(p), Signal(p), Load(p), Swap(p), Put(p), Count(p)];
            EnabledRun(q, o, more) && Enqueued(q, Run(q, o, more), p, q.pubs[p].size)
  {
    hide EnabledRun, Run, Enqueued;
    QueueLedger(publishers, o, run);
    WokenPublishes(Run(Start(publishers), o, run), o, p);
  }

  /** Where publishers do not wait, one that finds no room is refused, and the queue is as
      it was but for the count of records shed. */
  lemma NoRoomSheds(q: Queue, o: Options, p: nat, size: nat) returns (run: seq<Action>)
    requires !o.waits && p < |q.pubs| && q.pubs[p].Idle? && q.bytes >= 0 && !Roomy(q, o, size)
    ensures EnabledRun(q, o, run)
    ensures var q' := Run(q, o, run); q' == q.(shed := q.shed + 1, rollbacks := q'.rollbacks)
  {
    hide EnabledRun, Run;
    var q1 := Apply(q, o, Publish(p, size));
    var q2 := Apply(q1, o, Load(p));
    if q2.pubs[p].Failed? {
      var q' := Apply(q2, o, GiveUp(p));
      assert q'.pubs == q.pubs;
      Nil(q', o);
      Cons(q2, o, GiveUp(p), []);
      Cons(q1, o, Load(p), [GiveUp(p)] + []);
      Cons(q, o, Publish(p, size), [Load(p)] + ([GiveUp(p)] + []));
      run := [Publish(p, size)] + ([Load(p)] + ([GiveUp(p)] + []));
    } else {
      var q3 := Apply(q2, o, Swap(p));
      var q4 := Apply(q3, o, Put(p));
      var q5 := Apply(q4, o, Rollback(p));
      var q' := Apply(q5, o, GiveUp(p));
      assert q'.pubs == q.pubs;
      Nil(q', o);
      var rest := [Put(p)] + ([Rollback(p)] + ([GiveUp(p)] + []));
      Cons(q5, o, GiveUp(p), []);
      Cons(q4, o, Rollback(p), [GiveUp(p)] + []);
      Cons(q3, o, Put(p), [Rollback(p)] + ([GiveUp(p)] + []));
      Cons(q2, o, Swap(p), rest);
      Cons(q1, o, Load(p), [Swap(p)] + rest);
      Cons(q, o, Publish(p, size), [Load(p)] + ([Swap(p)] + rest));
      run := [Publish(p, size)] + ([Load(p)] + ([Swap(p)] + rest));
    }
  }

  // --------------------------------------------------------------- why records are shed

  /** The step a is an attempt of p that finds the byte bound passed or the channel full. */
  predicate FindsNoRoom(q: Queue, o: Options, a: Action, p: nat)
  {
    && p < |q.pubs|
    && ((a == Load(p) && q.pubs[p].Trying? && o.maxBytes > 0 && q.bytes > 0 && q.bytes + q.pubs[p].size > o.maxBytes)
        || (a == Put(p) && q.pubs[p].Reserved? && |q.ch| >= o.capacity))
  }

  /** A step that begins a publication of p, or another attempt of it. */
  predicate Begins(a: Action, p: nat)
  {
    a == Load(p) || (a.Publish? && a.p == p)
  }

  /** p's latest attempt in the run, its k-th step or after, found no room. */
  ghost predicate LastFoundNoRoom(q0: Queue, o: Options, run: seq<Action>, p: nat, k: nat)
    requires EnabledRun(q0, o, run)
  {
    && k < |run|
    && EnabledRun(q0, o, run[..k]) && FindsNoRoom(Run(q0, o, run[..k]), o, run[k], p)
    && forall j :: k < j < |run| ==> !Begins(run[j], p)
  }

  predicate Unlucky(x: Publisher) { x.Refusing? || x.Failed? || x.Parked? }

  lemma {:induction false} Snoc(q: Queue, o: Options, run: seq<Action>, a: Action)
    requires EnabledRun(q, o, run + [a])
    ensures EnabledRun(q, o, run) && Enabled(Run(q, o, run), o, a)
    ensures Run(q, o, run + [a]) == Apply(Run(q, o, run), o, a)
    decreases run
  {
    hide Apply, Enabled;
    if run == [] {
      assert run + [a] == [a];
      Nil(Apply(q, o, a), o);
    } else {
      assert (run + [a])[1..] == run[1..] + [a];
      Snoc(Apply(q, o, run[0]), o, run[1..], a);
    }
  }

  lemma {:induction false} FailsForWantOfRoom(q0: Queue, o: Options, run: seq<Action>, p: nat) returns (k: nat)
    requires EnabledRun(q0, o, run) && p < |q0.pubs| && q0.pubs[p].Idle?
    requires |Run(q0, o, run).pubs| == |q0.pubs| && Unlucky(Run(q0, o, run).pubs[p])
    ensures LastFoundNoRoom(q0, o, run, p, k)
    decreases |run|
  {
    hide EnabledRun, Run;
    assert run != [] by {
      Nil(q0, o);
    }
    var before, a := run[..|run| - 1], run[|run| - 1];
    assert run == before + [a];
    Snoc(q0, o, before, a);
    var q := Run(q0, o, before);
    SamePublishers(q, o, a);
    if FindsNoRoom(q, o, a, p) {
      k := |run| - 1;
    } else {
      Earlier(q, o, a, p);
      k := FailsForWantOfRoom(q0, o, before, p);
      assert run[..k] == before[..k];
    }
  }

  lemma SamePublishers(q: Queue, o: Options, a: Action)
    requires Enabled(q, o, a)
    ensures |Apply(q, o, a).pubs| == |q.pubs|
  {
  }

  /** A publisher is unlucky only after an attempt that found no room, or as it was. */
  lemma Earlier(q: Queue, o: Options, a: Action, p: nat)
    requires Enabled(q, o, a) && p < |q.pubs| && Unlucky(Apply(q, o, a).pubs[p]) && !FindsNoRoom(q, o, a, p)
    ensures Unlucky(q.pubs[p]) && !Begins(a, p)
  {
  }

  function GiveUps(run: seq<Action>): nat
  {
    if run == [] then 0 else GiveUps(run[..|run| - 1]) + (if run[|run| - 1].GiveUp? then 1 else 0)
  }

  /** Publications begun so far. */
  function Publications(run: seq<Action>): nat
  {
    if run == [] then 0 else Publications(run[..|run| - 1]) + (if run[|run| - 1].Publish? then 1 else 0)
  }

  /** One for each publisher at work. */
  function Working(x: Publisher): nat { if x.Idle? then 0 else 1 }

  lemma {:induction false} EachCounted(q0: Queue, o: Options, run: seq<Action>)
    requires EnabledRun(q0, o, run) && q0.shed == 0 && q0.enqueued == 0
    requires Sums.Sum(Sums.Each(q0.pubs, Working)) == 0
    ensures Run(q0, o, run).shed == GiveUps(run)
    ensures var q := Run(q0, o, run);
            Publications(run) == q.enqueued + q.shed + Sums.Sum(Sums.Each(q.pubs, Working))
    decreases |run|
  {
    hide EnabledRun, Run, Sums.Sum, Sums.Each;
    if run == [] {
      Nil(q0, o);
    } else {
      var before, a := run[..|run| - 1], run[|run| - 1];
      assert run == before + [a];
      Snoc(q0, o, before, a);
      EachCounted(q0, o, before);
      var q := Run(q0, o, before);
      if !OfDrain(a) {
        Sums.EachUpdate(q.pubs, Working, a.p, Apply(q, o, a).pubs[a.p]);
      }
    }
  }

  /** Over every run, as many records are shed as publishers gave up, and each of those had
      just made an attempt that found the channel full or the byte bound passed; and every
      publication begun has been enqueued, shed, or is still at work. */
  lemma ShedForWantOfRoom(publishers: nat, o: Options, run: seq<Action>)
    requires EnabledRun(Start(publishers), o, run)
    ensures var q := Run(Start(publishers), o, run);
            && q.shed == GiveUps(run)
            && Publications(run) == q.enqueued + q.shed + Sums.Sum(Sums.Each(q.pubs, Working))
    ensures forall p :: Enabled(Run(Start(publishers), o, run), o, GiveUp(p)) ==>
                          exists k :: LastFoundNoRoom(Start(publishers), o, run, p, k)
  {
    hide Run, EnabledRun;
    Sums.EachZeros(Start(publishers).pubs, Working);
    EachCounted(Start(publishers), o, run);
    SamePublishersRun(Start(publishers), o, run);
    forall p | Enabled(Run(Start(publishers), o, run), o, GiveUp(p))
      ensures exists k :: LastFoundNoRoom(Start(publishers), o, run, p, k)
    {
      var k := FailsForWantOfRoom(Start(publishers), o, run, p);
    }
  }

  lemma {:induction false} SamePublishersRun(q: Queue, o: Options, run: seq<Action>)
    requires EnabledRun(q, o, run)
    ensures |Run(q, o, run).pubs| == |q.pubs|
    decreases run
  {
    if run == [] {
    } else {
      SamePublishers(q, o, run[0]);
      hide Apply, Enabled;
      SamePublishersRun(Apply(q, o, run[0]), o, run[1..]);
    }
  }
}
