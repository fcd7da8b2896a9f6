/**
  When the publish queue can leave a publisher waiting beside an empty, idle queue:
  a booking given back wakes nobody (uptunnel/queue.go, offer and taken).
*/
module PublishStranding {
  import opened Bytes
  import opened Sums
  import opened PublishQueue

  /** Publisher p waits on an open signal, nothing is on the channel, being taken off
      it or booked, so nothing will close that signal but another publication. */
  predicate Stranded(q: Queue, p: nat)
  {
    p < |q.pubs| && q.pubs[p].Parked? && !Closed(q, q.pubs[p].room) && !Busy(q)
  }

  /** Every record published is of least bytes or more. */
  predicate Sized(run: seq<Action>, least: nat)
  {
    forall i :: 0 <= i < |run| && run[i].Publish? ==> run[i].size >= least
  }

  /** Some run that publishes only records of least bytes or more strands a publisher. */
  ghost predicate CanStrand(o: Options, least: nat)
  {
    exists n: nat, q, p :: Reaches(Start(n), o, least, q) && Stranded(q, p)
  }

  ghost predicate Reaches(q: Queue, o: Options, least: nat, q': Queue)
  {
    exists run :: Sized(run, least) && EnabledRun(q, o, run) && Run(q, o, run) == q'
  }

  /** With records of any size, a publisher can be stranded exactly when publishers wait
      and there is a byte bound; with records that are never empty, exactly when they wait
      and the bound is more bytes than the channel holds records. NewQueue never makes a
      channel of capacity 0. */
  lemma StrandsIff(o: Options)
    requires o.capacity > 0
    ensures CanStrand(o, 0) <==> o.waits && o.maxBytes > 0
    ensures CanStrand(o, 1) <==> o.waits && o.maxBytes > o.capacity
  {
    if !o.waits {
      ImpatientNeverStrands(o, 0);
      ImpatientNeverStrands(o, 1);
    } else if o.maxBytes == 0 {
      UnboundedNeverStrands(o, 0);
      UnboundedNeverStrands(o, 1);
    } else {
      StrandingRun(o, 0);
      if o.maxBytes > o.capacity {
        StrandingRun(o, 1);
      } else {
        NarrowNeverStrands(o);
      }
    }
  }

  // -------------------------------------------------------- where it cannot happen

  /** Nobody holds a signal. */
  ghost predicate NoSignals(q: Queue)
  {
    forall p :: 0 <= p < |q.pubs| ==> SignalOf(q.pubs[p]).None?
  }

  lemma {:induction false} RunNoSignals(q: Queue, o: Options, run: seq<Action>)
    requires !o.waits && NoSignals(q) && EnabledRun(q, o, run)
    ensures NoSignals(Run(q, o, run))
    decreases run
  {
    if run == [] {
    } else {
      StepNoSignals(q, o, run[0]);
      RunNoSignals(Apply(q, o, run[0]), o, run[1..]);
    }
  }

  lemma StepNoSignals(q: Queue, o: Options, a: Action)
    requires !o.waits && NoSignals(q) && Enabled(q, o, a)
    ensures NoSignals(Apply(q, o, a))
  {
    if !OfDrain(a) {
      assert SignalOf(q.pubs[a.p]).None?;
    }
  }

  lemma ImpatientNeverStrands(o: Options, least: nat)
    requires !o.waits
    ensures !CanStrand(o, least)
  {
    if CanStrand(o, least) {
      var n: nat, q, p: nat :| Reaches(Start(n), o, least, q) && Stranded(q, p);
      var run :| Sized(run, least) && EnabledRun(Start(n), o, run) && Run(Start(n), o, run) == q;
      RunNoSignals(Start(n), o, run);
      assert false;
    }
  }

  lemma UnboundedNeverStrands(o: Options, least: nat)
    requires o.capacity > 0 && o.maxBytes == 0
    ensures !CanStrand(o, least)
  {
    if CanStrand(o, least) {
      var n: nat, q, p: nat :| Reaches(Start(n), o, least, q) && Stranded(q, p);
      var run :| Sized(run, least) && EnabledRun(Start(n), o, run) && Run(Start(n), o, run) == q;
      NoLostWakeup(n, o, run, p);
      assert false;
    }
  }

  predicate Positive(x: Publisher) { x.Idle? || x.Sent? || x.size > 0 }

  /** No record is empty, and no booking has ever been refused room on the channel. */
  ghost predicate NeverRefused(q: Queue)
  {
    && (forall p :: 0 <= p < |q.pubs| ==> Positive(q.pubs[p]) && !q.pubs[p].Refusing?)
    && (forall i :: 0 <= i < |q.ch| ==> q.ch[i] > 0)
    && q.rollbacks == 0
  }

  lemma {:induction false} AllNonEmpty(s: seq<nat>)
    requires forall i :: 0 <= i < |s| ==> s[i] > 0
    ensures NonEmpty(s) == |s|
  {
    if s == [] {
    } else {
      AllNonEmpty(s[1..]);
    }
  }

  lemma {:induction false} SomeNonEmpty(s: seq<nat>, i: nat)
    requires i < |s| && s[i] > 0
    ensures NonEmpty(s) >= 1
  {
    if i == 0 {
    } else {
      SomeNonEmpty(s[1..], i - 1);
    }
  }

  /** A publisher with its bytes booked finds room: a full channel of non-empty records
      and its own would be more than the bound. */
  lemma RoomForBooked(q: Queue, o: Options, p: nat)
    requires LedgerInv(q, o) && NeverRefused(q) && 0 < o.maxBytes <= o.capacity
    requires p < |q.pubs| && q.pubs[p].Reserved?
    ensures |q.ch| < o.capacity
  {
    AllNonEmpty(q.ch);
    SomeNonEmpty(Sizes(q.pubs), p);
    SumBounds(q.ch);
    SumBounds(Sizes(q.pubs));
    hide Sum, NonEmpty, Sizes;
  }

  lemma StepNeverRefused(q: Queue, o: Options, a: Action)
    requires LedgerInv(q, o) && NeverRefused(q) && 0 < o.maxBytes <= o.capacity
    requires Enabled(q, o, a) && (a.Publish? ==> a.size > 0)
    ensures NeverRefused(Apply(q, o, a))
  {
    hide LedgerInv;
    if a.Put? {
      RoomForBooked(q, o, a.p);
      assert Positive(q.pubs[a.p]);
    } else if !OfDrain(a) && !a.Publish? {
      assert Positive(q.pubs[a.p]);
    }
  }

  lemma {:induction false} RunNeverRefused(q: Queue, o: Options, run: seq<Action>)
    requires LedgerInv(q, o) && NeverRefused(q) && 0 < o.maxBytes <= o.capacity
    requires EnabledRun(q, o, run) && Sized(run, 1)
    ensures NeverRefused(Run(q, o, run))
    decreases run
  {
    if run == [] {
    } else {
      StepLedger(q, o, run[0]);
      StepNeverRefused(q, o, run[0]);
      RunNeverRefused(Apply(q, o, run[0]), o, run[1..]);
    }
  }

  lemma NarrowNeverStrands(o: Options)
    requires 0 < o.maxBytes <= o.capacity
    ensures !CanStrand(o, 1)
  {
    if CanStrand(o, 1) {
      var n: nat, q, p: nat :| Reaches(Start(n), o, 1, q) && Stranded(q, p);
      var run :| Sized(run, 1) && EnabledRun(Start(n), o, run) && Run(Start(n), o, run) == q;
      StartInv(n, o);
      RunNeverRefused(Start(n), o, run);
      NoLostWakeup(n, o, run, p);
      assert false;
    }
  }

  // ----------------------------------------------------------- where it can happen

  lemma Stays(q: Queue, o: Options, least: nat)
    ensures Reaches(q, o, least, q)
  {
    assert Sized([], least) && EnabledRun(q, o, []) && Run(q, o, []) == q;
  }

  /** One step, then whatever can be reached. */
  lemma Then(q: Queue, o: Options, least: nat, a: Action, q': Queue)
    requires Enabled(q, o, a) && (a.Publish? ==> a.size >= least) && Reaches(Apply(q, o, a), o, least, q')
    ensures Reaches(q, o, least, q')
  {
    var run :| Sized(run, least) && EnabledRun(Apply(q, o, a), o, run) && Run(Apply(q, o, a), o, run) == q';
    var all := [a] + run;
    assert all[0] == a && all[1..] == run;
    assert forall i :: 1 <= i < |all| ==> all[i] == run[i - 1];
    assert Sized(all, least) && EnabledRun(q, o, all) && Run(q, o, all) == q';
  }

  /** The bytes of k records of z bytes. */
  function SizeOf(k: nat, z: nat): nat
    requires z <= 1
  {
    if z == 0 then 0 else k
  }

  /** Even a full channel leaves room under the byte bound for one byte more. */
  predicate Wide(o: Options, z: nat)
    requires z <= 1
  {
    o.waits && o.capacity > 0 && SizeOf(o.capacity, z) < o.maxBytes
  }

  /** k records of z bytes on the channel, nothing else booked. */
  function Filling(k: nat, z: nat): Queue
    requires z <= 1
  {
    Queue(SizeOf(k, z), seq(k, _ => z), [Idle, Idle, Idle], Ready, None, 0, k, 0, 0, 0)
  }

  /** Publisher 0 fills the channel from k records on. */
  lemma {:induction false} Fills(o: Options, z: nat, k: nat, q': Queue)
    requires z <= 1 && k <= o.capacity && Wide(o, z) && Reaches(Filling(o.capacity, z), o, z, q')
    ensures Reaches(Filling(k, z), o, z, q')
    decreases o.capacity - k
  {
    if k == o.capacity {
    } else {
      Fills(o, z, k + 1, q');
      PutsOne(o, z, k, q');
    }
  }

  lemma PutsOne(o: Options, z: nat, k: nat, q': Queue)
    requires z <= 1 && k < o.capacity && Wide(o, z) && Reaches(Filling(k + 1, z), o, z, q')
    ensures Reaches(Filling(k, z), o, z, q')
  {
    hide Reaches;
    var q0 := Filling(k, z);
    var q1 := Apply(q0, o, Publish(0, z));
    var q2 := Apply(q1, o, Load(0));
    var q3 := Apply(q2, o, Swap(0));
    var q4 := Apply(q3, o, Put(0));
    assert q4.ch == seq(k + 1, _ => z);
    assert Apply(q4, o, Count(0)) == Filling(k + 1, z);
    Then(q4, o, z, Count(0), q');
    Then(q3, o, z, Put(0), q');
    Then(q2, o, z, Swap(0), q');
    Then(q1, o, z, Load(0), q');
    Then(q0, o, z, Publish(0, z), q');
  }

  /** Publisher 1 has been refused, taken signal 0, booked its byte again and been refused
      again; k records are left on the channel, and room is the open signal. */
  function Refused(o: Options, k: nat, z: nat, room: Option<nat>): Queue
    requires z <= 1 && k <= o.capacity
  {
    Queue(SizeOf(k, z) + 1, seq(k, _ => z), [Idle, Refusing(1, Some(0)), Idle], Ready, room, 1,
          o.capacity, o.capacity - k, 0, 1)
  }

  /** Publisher 1 has been refused, and has taken signal 0 to try again. */
  function Tried(o: Options, z: nat): Queue
    requires z <= 1
  {
    Filling(o.capacity, z).(pubs := [Idle, Trying(1, Some(0)), Idle], room := Some(0), rooms := 1, rollbacks := 1)
  }

  /** Publisher 1 finds the channel full, and takes a signal. */
  lemma RefusedOnce(o: Options, z: nat, q': Queue)
    requires z <= 1 && Wide(o, z)
    requires Reaches(Tried(o, z), o, z, q')
    ensures Reaches(Filling(o.capacity, z), o, z, q')
  {
    hide Reaches;
    var q0 := Filling(o.capacity, z);
    var q1 := Apply(q0, o, Publish(1, 1));
    var q2 := Apply(q1, o, Load(1));
    var q3 := Apply(q2, o, Swap(1));
    var q4 := Apply(q3, o, Put(1));
    var q5 := Apply(q4, o, Rollback(1));
    assert Apply(q5, o, Signal(1)) == Tried(o, z);
    Then(q5, o, z, Signal(1), q');
    Then(q4, o, z, Rollback(1), q');
    Then(q3, o, z, Put(1), q');
    Then(q2, o, z, Swap(1), q');
    Then(q1, o, z, Load(1), q');
    Then(q0, o, z, Publish(1, 1), q');
  }

  /** It tries again, and finds the channel still full. */
  lemma RefusedTwice(o: Options, z: nat, q': Queue)
    requires z <= 1 && Wide(o, z) && Reaches(Refused(o, o.capacity, z, Some(0)), o, z, q')
    ensures Reaches(Tried(o, z), o, z, q')
  {
    hide Reaches;
    var q0 := Tried(o, z);
    var q1 := Apply(q0, o, Load(1));
    var q2 := Apply(q1, o, Swap(1));
    assert Apply(q2, o, Put(1)) == Refused(o, o.capacity, z, Some(0));
    Then(q2, o, z, Put(1), q');
    Then(q1, o, z, Swap(1), q');
    Then(q0, o, z, Load(1), q');
  }

  /** The drain takes every record. */
  lemma {:induction false} Drains(o: Options, z: nat, k: nat, room: Option<nat>, q': Queue)
    requires z <= 1 && k <= o.capacity && (k == 0 ==> room == None) && Reaches(Refused(o, 0, z, None), o, z, q')
    ensures Reaches(Refused(o, k, z, room), o, z, q')
    decreases k
  {
    if k == 0 {
    } else {
      Drains(o, z, k - 1, None, q');
      TakesOne(o, z, k, room, q');
    }
  }

  lemma TakesOne(o: Options, z: nat, k: nat, room: Option<nat>, q': Queue)
    requires z <= 1 && 0 < k <= o.capacity && Reaches(Refused(o, k - 1, z, None), o, z, q')
    ensures Reaches(Refused(o, k, z, room), o, z, q')
  {
    hide Reaches;
    var q0 := Refused(o, k, z, room);
    var q1 := Apply(q0, o, Receive);
    assert q1.ch == seq(k - 1, _ => z);
    var q2 := Apply(q1, o, Release);
    assert Apply(q2, o, Announce) == Refused(o, k - 1, z, None);
    Then(q2, o, z, Announce, q');
    Then(q1, o, z, Release, q');
    Then(q0, o, z, Receive, q');
  }

  /** Publisher 2 takes signal 1 and fails on the byte still booked, and only then is that
      byte given back, by a publisher whose own signal is closed and whose time is up. */
  lemma ParksAndRollsBack(o: Options, z: nat) returns (q': Queue)
    requires z <= 1 && Wide(o, z)
    ensures Reaches(Refused(o, 0, z, None), o, z, q') && Stranded(q', 2)
  {
    hide Reaches;
    var q0 := Refused(o, 0, z, None);
    var q1 := Apply(q0, o, Publish(2, o.maxBytes));
    var q2 := Apply(q1, o, Load(2));
    var q3 := Apply(q2, o, Signal(2));
    var q4 := Apply(q3, o, Load(2));
    var q5 := Apply(q4, o, Park(2));
    var q6 := Apply(q5, o, Rollback(1));
    var q7 := Apply(q6, o, Park(1));
    q' := Apply(q7, o, GiveUp(1));
    Stays(q', o, z);
    Then(q7, o, z, GiveUp(1), q');
    Then(q6, o, z, Park(1), q');
    Then(q5, o, z, Rollback(1), q');
    Then(q4, o, z, Park(2), q');
    Then(q3, o, z, Load(2), q');
    Then(q2, o, z, Signal(2), q');
    Then(q1, o, z, Load(2), q');
    Then(q0, o, z, Publish(2, o.maxBytes), q');
  }

  /** The channel is filled with records of z bytes; a publisher of one byte is refused,
      and while it is being refused again the channel drains and another publisher fails
      on that byte and parks. */
  lemma StrandingRun(o: Options, z: nat)
    requires z <= 1 && Wide(o, z)
    ensures CanStrand(o, z)
  {
    hide Reaches, Stranded;
    var q' := ParksAndRollsBack(o, z);
    Drains(o, z, o.capacity, Some(0), q');
    RefusedTwice(o, z, q');
    RefusedOnce(o, z, q');
    Fills(o, z, 0, q');
    StartsEmpty(z);
    assert Reaches(Start(3), o, z, q');
  }

  lemma StartsEmpty(z: nat)
    requires z <= 1
    ensures Start(3) == Filling(0, z)
  {
    assert Start(3).pubs == [Idle, Idle, Idle];
  }
}
