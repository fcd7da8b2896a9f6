/**
  The publish queue of uptunnel/queue.go: lock-free byte reservation, a bounded
  channel and a wakeup signal, as atomic steps of any number of publishers and
  one drain, interleaved in any order.
*/
module PublishQueue {
  import opened Bytes
  import opened Sums

  /** waits: a publisher that finds no room waits for it (Wait > 0). */
  datatype Options = Options(capacity: nat, maxBytes: nat, waits: bool)

  /** Where a publisher stands in Publish. signal is the room channel it took
      before this attempt, None on the first. */
  datatype Publisher =
    | Idle
    | Trying(size: nat, signal: Option<nat>)          // about to read the byte count
    | Loaded(size: nat, signal: Option<nat>, b: int)  // the bound allows b + size
    | Reserved(size: nat, signal: Option<nat>)        // booked, not on the channel yet
    | Sent                                            // on the channel, not counted yet
    | Refusing(size: nat, signal: Option<nat>)        // the channel was full, still booked
    | Failed(size: nat, signal: Option<nat>, rollbacks: nat)  // the attempt failed
    | Parked(size: nat, room: nat, rollbacks: nat)    // waiting on its signal

  /** Where the drain stands: between records, or releasing one it received. */
  datatype Drain = Ready | Took(size: nat) | Released

  datatype Queue = Queue(
    bytes: int,
    ch: seq<nat>,          // the sizes of the records on the channel
    pubs: seq<Publisher>,
    drain: Drain,
    room: Option<nat>,     // the open signal, if a publisher made one
    rooms: nat,            // signals made so far
    enqueued: nat, taken: nat, shed: nat,
    rollbacks: nat)        // reservations given back so far

  datatype Action =
    | Publish(p: nat, size: nat)
    | Load(p: nat)
    | Swap(p: nat)
    | Put(p: nat)
    | Count(p: nat)
    | Rollback(p: nat)
    | Signal(p: nat)
    | Park(p: nat)
    | Wake(p: nat)
    | GiveUp(p: nat)
    | Receive
    | Release
    | Announce

  function Start(publishers: nat): Queue
  {
    Queue(0, [], seq(publishers, _ => Idle), Ready, None, 0, 0, 0, 0, 0)
  }

  predicate Closed(q: Queue, r: nat) { r < q.rooms && q.room != Some(r) }

  /** reserve's test on the byte count it read. */
  predicate Fits(o: Options, b: int, size: nat)
  {
    !(o.maxBytes > 0 && b > 0 && b + size > o.maxBytes)
  }

  predicate Enabled(q: Queue, o: Options, a: Action)
  {
    match a
    case Publish(p, _) => p < |q.pubs| && q.pubs[p].Idle?
    case Load(p) => p < |q.pubs| && q.pubs[p].Trying?
    case Swap(p) => p < |q.pubs| && q.pubs[p].Loaded?
    case Put(p) => p < |q.pubs| && q.pubs[p].Reserved?
    case Count(p) => p < |q.pubs| && q.pubs[p].Sent?
    case Rollback(p) => p < |q.pubs| && q.pubs[p].Refusing?
    case Signal(p) => p < |q.pubs| && q.pubs[p].Failed? && q.pubs[p].signal.None? && o.waits
    case Park(p) => p < |q.pubs| && q.pubs[p].Failed? && q.pubs[p].signal.Some?
    case Wake(p) => p < |q.pubs| && q.pubs[p].Parked? && Closed(q, q.pubs[p].room)
    case GiveUp(p) => p < |q.pubs| && (q.pubs[p].Parked? || (q.pubs[p].Failed? && !o.waits))
    case Receive => q.drain.Ready? && q.ch != []
    case Release => q.drain.Took?
    case Announce => q.drain.Released?
  }

  function Apply(q: Queue, o: Options, a: Action): Queue
    requires Enabled(q, o, a)
  {
    match a
    case Publish(p, size) => q.(pubs := q.pubs[p := Trying(size, None)])
    case Load(p) =>
      var x := q.pubs[p];
      if Fits(o, q.bytes, x.size) then q.(pubs := q.pubs[p := Loaded(x.size, x.signal, q.bytes)])
      else q.(pubs := q.pubs[p := Failed(x.size, x.signal, q.rollbacks)])
    case Swap(p) =>
      var x := q.pubs[p];
      if q.bytes == x.b then q.(bytes := x.b + x.size, pubs := q.pubs[p := Reserved(x.size, x.signal)])
      else q.(pubs := q.pubs[p := Trying(x.size, x.signal)])
    case Put(p) =>
      var x := q.pubs[p];
      if |q.ch| < o.capacity then q.(ch := q.ch + [x.size], pubs := q.pubs[p := Sent])
      else q.(pubs := q.pubs[p := Refusing(x.size, x.signal)])
    case Count(p) => q.(enqueued := q.enqueued + 1, pubs := q.pubs[p := Idle])
    case Rollback(p) =>
      var x := q.pubs[p];
      q.(bytes := q.bytes - x.size, rollbacks := q.rollbacks + 1,
         pubs := q.pubs[p := Failed(x.size, x.signal, q.rollbacks + 1)])
    case Signal(p) =>
      var r := if q.room.Some? then q.room.value else q.rooms;
      q.(room := Some(r), rooms := if q.room.Some? then q.rooms else q.rooms + 1,
         pubs := q.pubs[p := Trying(q.pubs[p].size, Some(r))])
    case Park(p) =>
      var x := q.pubs[p];
      q.(pubs := q.pubs[p := Parked(x.size, x.signal.value, x.rollbacks)])
    case Wake(p) => q.(pubs := q.pubs[p := Failed(q.pubs[p].size, None, q.pubs[p].rollbacks)])
    case GiveUp(p) => q.(shed := q.shed + 1, pubs := q.pubs[p := Idle])
    case Receive => q.(ch := q.ch[1..], drain := Took(q.ch[0]))
    case Release => q.(bytes := q.bytes - q.drain.size, drain := Released)
    case Announce => q.(room := None, taken := q.taken + 1, drain := Ready)
  }

  predicate EnabledRun(q: Queue, o: Options, run: seq<Action>)
    decreases run
  {
    run == [] || (Enabled(q, o, run[0]) && EnabledRun(Apply(q, o, run[0]), o, run[1..]))
  }

  function Run(q: Queue, o: Options, run: seq<Action>): Queue
    requires EnabledRun(q, o, run)
    decreases run
  {
    if run == [] then q else Run(Apply(q, o, run[0]), o, run[1..])
  }

  // -------------------------------------------------------------- the byte ledger

  /** What a publisher has booked. */
  function Books(x: Publisher): nat
  {
    if x.Reserved? || x.Refusing? then x.size else 0
  }

  function Sizes(pubs: seq<Publisher>): seq<nat>
  {
    seq(|pubs|, i requires 0 <= i < |pubs| => Books(pubs[i]))
  }

  /** One for each publisher whose record is on the channel and not counted yet. */
  function Uncounted(pubs: seq<Publisher>): seq<nat>
  {
    seq(|pubs|, i requires 0 <= i < |pubs| => if pubs[i].Sent? then 1 else 0)
  }

  function InDrain(d: Drain): nat { if d.Took? then d.size else 0 }

  /** How many of the sizes are not zero. */
  function NonEmpty(s: seq<nat>): nat
  {
    if s == [] then 0 else (if s[0] > 0 then 1 else 0) + NonEmpty(s[1..])
  }

  function One(n: nat): nat { if n > 0 then 1 else 0 }

  /** Everything booked: reserved, queued, or received and not yet released. */
  function Booked(q: Queue): nat
  {
    Sum(q.ch) + Sum(Sizes(q.pubs)) + InDrain(q.drain)
  }

  /** How many non-empty records are booked. */
  function BookedRecords(q: Queue): nat
  {
    NonEmpty(q.ch) + NonEmpty(Sizes(q.pubs)) + One(InDrain(q.drain))
  }

  lemma {:induction false} NonEmptyUpdate(s: seq<nat>, i: nat, v: nat)
    requires i < |s|
    ensures NonEmpty(s[i := v]) == NonEmpty(s) - One(s[i]) + One(v)
    decreases |s|
  {
    if i == 0 {
      assert s[i := v][1..] == s[1..];
    } else {
      NonEmptyUpdate(s[1..], i - 1, v);
      assert s[i := v][1..] == s[1..][i - 1 := v];
    }
  }

  lemma {:induction false} NonEmptyAppend(s: seq<nat>, v: nat)
    ensures NonEmpty(s + [v]) == NonEmpty(s) + One(v)
  {
    if s == [] {
      assert s + [v] == [v];
    } else {
      NonEmptyAppend(s[1..], v);
      assert (s + [v])[1..] == s[1..] + [v];
    }
  }

  lemma {:induction false} SumBounds(s: seq<nat>)
    ensures Sum(s) >= NonEmpty(s) && (NonEmpty(s) == 0 ==> Sum(s) == 0)
  {
    if s == [] {
    } else {
      SumBounds(s[1..]);
    }
  }

  lemma SizesUpdate(pubs: seq<Publisher>, p: nat, x: Publisher)
    requires p < |pubs|
    ensures Sum(Sizes(pubs[p := x])) == Sum(Sizes(pubs)) - Books(pubs[p]) + Books(x)
    ensures NonEmpty(Sizes(pubs[p := x])) == NonEmpty(Sizes(pubs)) - One(Books(pubs[p])) + One(Books(x))
  {
    SumUpdate(Sizes(pubs), p, Books(x));
    NonEmptyUpdate(Sizes(pubs), p, Books(x));
    assert Sizes(pubs[p := x]) == Sizes(pubs)[p := Books(x)];
  }

  lemma UncountedUpdate(pubs: seq<Publisher>, p: nat, x: Publisher)
    requires p < |pubs|
    ensures Sum(Uncounted(pubs[p := x])) ==
            Sum(Uncounted(pubs)) - (if pubs[p].Sent? then 1 else 0) + (if x.Sent? then 1 else 0)
  {
    var v := if x.Sent? then 1 else 0;
    SumUpdate(Uncounted(pubs), p, v);
    assert Uncounted(pubs[p := x]) == Uncounted(pubs)[p := v];
  }

  /** A byte count a publisher has read was allowed by the bound. */
  predicate LoadedOk(x: Publisher, o: Options)
  {
    x.Loaded? ==> Fits(o, x.b, x.size)
  }

  ghost predicate LedgerInv(q: Queue, o: Options)
  {
    && q.bytes == Booked(q)
    && (o.maxBytes > 0 ==> q.bytes <= o.maxBytes || BookedRecords(q) == 1)
    && (forall p :: 0 <= p < |q.pubs| ==> LoadedOk(q.pubs[p], o))
    && |q.ch| <= o.capacity
    && q.enqueued + Sum(Uncounted(q.pubs)) == q.taken + |q.ch| + (if q.drain.Ready? then 0 else 1)
  }

  lemma NothingBooked(q: Queue)
    ensures Booked(q) == 0 <==> BookedRecords(q) == 0
  {
    SumBounds(q.ch);
    SumBounds(Sizes(q.pubs));
  }

  /** What one step does to what is booked. */
  ghost predicate BooksMove(q: Queue, o: Options, a: Action)
    requires Enabled(q, o, a)
  {
    var q' := Apply(q, o, a);
    && Booked(q') - Booked(q) == q'.bytes - q.bytes
    && if a.Swap? && q.bytes == q.pubs[a.p].b
       then BookedRecords(q') == BookedRecords(q) + One(q.pubs[a.p].size)
       else if a.Rollback? then BookedRecords(q') == BookedRecords(q) - One(q.pubs[a.p].size)
       else if a.Release? then BookedRecords(q') == BookedRecords(q) - One(q.drain.size)
       else BookedRecords(q') == BookedRecords(q)
  }

  predicate OfDrain(a: Action) { a.Receive? || a.Release? || a.Announce? }

  lemma DrainBooks(q: Queue, o: Options, a: Action)
    requires Enabled(q, o, a) && OfDrain(a)
    ensures BooksMove(q, o, a)
  {
    if a.Receive? {
      assert q.ch == [q.ch[0]] + q.ch[1..];
    }
  }

  lemma PublisherBooks(q: Queue, o: Options, a: Action)
    requires Enabled(q, o, a) && !OfDrain(a)
    ensures BooksMove(q, o, a)
  {
    hide Sizes, Sum, NonEmpty;
    SizesUpdate(q.pubs, a.p, Apply(q, o, a).pubs[a.p]);
    if a.Put? {
      SumAppend(q.ch, q.pubs[a.p].size);
      NonEmptyAppend(q.ch, q.pubs[a.p].size);
    }
  }

  lemma StepLedger(q: Queue, o: Options, a: Action)
    requires LedgerInv(q, o) && Enabled(q, o, a)
    ensures LedgerInv(Apply(q, o, a), o)
  {
    hide Booked, BookedRecords, Uncounted, Sum;
    var q' := Apply(q, o, a);
    if OfDrain(a) {
      DrainBooks(q, o, a);
    } else {
      PublisherBooks(q, o, a);
      UncountedUpdate(q.pubs, a.p, q'.pubs[a.p]);
    }
    NothingBooked(q);
    NothingBooked(q');
    if a.Swap? {
      assert LoadedOk(q.pubs[a.p], o);
    }
    forall p | 0 <= p < |q'.pubs| ensures LoadedOk(q'.pubs[p], o) {
      assert LoadedOk(q.pubs[p], o);
    }
  }

  lemma {:induction false} RunLedger(q: Queue, o: Options, run: seq<Action>)
    requires LedgerInv(q, o) && EnabledRun(q, o, run)
    ensures LedgerInv(Run(q, o, run), o)
    decreases run
  {
    if run == [] {
    } else {
      StepLedger(q, o, run[0]);
      RunLedger(Apply(q, o, run[0]), o, run[1..]);
    }
  }

  /** Under every interleaving of any number of publishers with the drain: the
      byte count is exactly what is booked, so it never goes negative; and with
      a bound it stays under it, or one non-empty record is booked alone. Every record
      put on the channel is queued, in hand or taken, and counted as enqueued or about
      to be by the publisher that put it there. */
  lemma QueueLedger(publishers: nat, o: Options, run: seq<Action>)
    requires EnabledRun(Start(publishers), o, run)
    ensures var q := Run(Start(publishers), o, run);
            && q.bytes == Booked(q) >= 0
            && (o.maxBytes > 0 ==> q.bytes <= o.maxBytes || BookedRecords(q) == 1)
            && |q.ch| <= o.capacity
            && q.enqueued + Sum(Uncounted(q.pubs)) == q.taken + |q.ch| + (if q.drain.Ready? then 0 else 1)
  {
    StartInv(publishers, o);
    RunLedger(Start(publishers), o, run);
  }

  // ------------------------------------------------------------------ the wakeups

  function SignalOf(x: Publisher): Option<nat>
  {
    if x.Idle? || x.Sent? then None else if x.Parked? then Some(x.room) else x.signal
  }

  /** Some record is on the channel or being taken off it, or a publisher is about
      to put one there or give its booking back. */
  predicate Busy(q: Queue)
  {
    q.ch != [] || !q.drain.Ready? || exists p :: 0 <= p < |q.pubs| && (q.pubs[p].Reserved? || q.pubs[p].Refusing?)
  }

  /** The channel is full, or a take that will announce itself is under way. */
  predicate FullOrTaking(q: Queue, o: Options)
  {
    |q.ch| >= o.capacity || !q.drain.Ready?
  }

  /** A failed attempt whose signal is still open: no take has been announced
      since the signal was taken. */
  predicate Waits(q: Queue, x: Publisher)
  {
    (x.Failed? || x.Parked? || x.Refusing?) && q.room.Some? && SignalOf(x) == q.room
  }

  ghost predicate WakeInv(q: Queue, o: Options)
  {
    && (q.room.Some? ==> q.room.value + 1 == q.rooms)
    && (forall p :: 0 <= p < |q.pubs| ==> SignalOf(q.pubs[p]).Some? ==> SignalOf(q.pubs[p]).value < q.rooms)
    && (forall p :: 0 <= p < |q.pubs| ==> (q.pubs[p].Failed? || q.pubs[p].Parked?) ==> q.pubs[p].rollbacks <= q.rollbacks)
    && (forall p :: 0 <= p < |q.pubs| ==> Waits(q, q.pubs[p]) ==> StillBlocked(q, o, q.pubs[p]))
  }

  /** Why a waiting publisher is still blocked. */
  predicate StillBlocked(q: Queue, o: Options, x: Publisher)
    requires x.Failed? || x.Parked? || x.Refusing?
  {
    if x.Refusing? then FullOrTaking(q, o)
    else FullOrTaking(q, o) || (o.maxBytes > 0 && (Busy(q) || x.rollbacks < q.rollbacks))
  }

  lemma {:induction false} SomePositive(s: seq<nat>) returns (i: nat)
    requires Sum(s) > 0
    ensures i < |s| && s[i] > 0
  {
    if s[0] > 0 {
      i := 0;
    } else {
      i := SomePositive(s[1..]);
      i := i + 1;
    }
  }

  lemma BookedIsBusy(q: Queue)
    requires Booked(q) > 0
    ensures Busy(q)
  {
    if q.ch == [] && q.drain.Ready? {
      var i := SomePositive(Sizes(q.pubs));
      assert q.pubs[i].Reserved? || q.pubs[i].Refusing?;
    }
  }

  /** Work in sight does not vanish unseen: it is taken, and announced, or it is
      a booking given back. */
  lemma BusyLasts(q: Queue, o: Options, a: Action)
    requires Enabled(q, o, a) && Busy(q)
    ensures var q' := Apply(q, o, a); Busy(q') || a.Announce? || q'.rollbacks > q.rollbacks
  {
    var q' := Apply(q, o, a);
    if q.ch == [] && q.drain.Ready? && !a.Rollback? {
      var p :| 0 <= p < |q.pubs| && (q.pubs[p].Reserved? || q.pubs[p].Refusing?);
      if OfDrain(a) || a.p != p {
        assert q'.pubs[p] == q.pubs[p];
      } else {
        assert q'.ch != [] || q'.pubs[p].Refusing?;
      }
    }
  }

  lemma FullLasts(q: Queue, o: Options, a: Action)
    requires Enabled(q, o, a) && FullOrTaking(q, o)
    ensures FullOrTaking(Apply(q, o, a), o) || a.Announce?
  {
  }

  /** A step leaves every other waiting publisher blocked for a good reason. */
  lemma OthersBlocked(q: Queue, o: Options, a: Action, p: nat)
    requires LedgerInv(q, o) && WakeInv(q, o) && Enabled(q, o, a) && p < |q.pubs|
    requires OfDrain(a) || a.p != p
    ensures var q' := Apply(q, o, a); Waits(q', q'.pubs[p]) ==> StillBlocked(q', o, q'.pubs[p])
  {
    hide Busy, FullOrTaking;
    var q' := Apply(q, o, a);
    assert q'.pubs[p] == q.pubs[p];
    if Waits(q', q'.pubs[p]) {
      assert Waits(q, q.pubs[p]) && StillBlocked(q, o, q.pubs[p]);
      if FullOrTaking(q, o) {
        FullLasts(q, o, a);
      } else {
        if Busy(q) {
          BusyLasts(q, o, a);
        }
        assert q.pubs[p].rollbacks <= q.rollbacks <= q'.rollbacks;
      }
    }
  }

  /** The publisher that steps is blocked for a good reason if it now waits. */
  lemma SelfBlocked(q: Queue, o: Options, a: Action)
    requires LedgerInv(q, o) && WakeInv(q, o) && Enabled(q, o, a) && !OfDrain(a)
    ensures var q' := Apply(q, o, a); Waits(q', q'.pubs[a.p]) ==> StillBlocked(q', o, q'.pubs[a.p])
  {
    var q', x := Apply(q, o, a), q.pubs[a.p];
    if Waits(q', q'.pubs[a.p]) {
      match a
      case Load(p) =>
        BookedIsBusy(q);
        BusyLasts(q, o, a);
      case Put(p) =>
        assert |q.ch| >= o.capacity;
      case Rollback(p) =>
        assert Waits(q, x) && StillBlocked(q, o, x);
      case Park(p) =>
        assert Waits(q, x) && StillBlocked(q, o, x);
        assert Busy(q) ==> Busy(q') by {
          if Busy(q) {
            BusyLasts(q, o, a);
          }
        }
      case _ =>
    }
  }

  lemma StepWake(q: Queue, o: Options, a: Action)
    requires LedgerInv(q, o) && WakeInv(q, o) && Enabled(q, o, a)
    ensures WakeInv(Apply(q, o, a), o)
  {
    hide LedgerInv, Busy, FullOrTaking, StillBlocked;
    var q' := Apply(q, o, a);
    forall p | 0 <= p < |q'.pubs| && Waits(q', q'.pubs[p]) ensures StillBlocked(q', o, q'.pubs[p]) {
      if OfDrain(a) || a.p != p {
        OthersBlocked(q, o, a, p);
      } else {
        SelfBlocked(q, o, a);
      }
    }
  }

  lemma {:induction false} RunWake(q: Queue, o: Options, run: seq<Action>)
    requires LedgerInv(q, o) && WakeInv(q, o) && EnabledRun(q, o, run)
    ensures WakeInv(Run(q, o, run), o)
    decreases run
  {
    if run == [] {
    } else {
      StepLedger(q, o, run[0]);
      StepWake(q, o, run[0]);
      RunWake(Apply(q, o, run[0]), o, run[1..]);
    }
  }

  lemma StartInv(publishers: nat, o: Options)
    ensures LedgerInv(Start(publishers), o) && WakeInv(Start(publishers), o)
  {
    StartLedger(publishers, o);
    hide LedgerInv;
  }

  lemma StartLedger(publishers: nat, o: Options)
    ensures LedgerInv(Start(publishers), o)
  {
    var q := Start(publishers);
    SumZeros(Sizes(q.pubs));
    SumZeros(Uncounted(q.pubs));
    hide Sizes, Uncounted, NonEmpty;
    assert forall p :: 0 <= p < |q.pubs| ==> q.pubs[p].Idle?;
  }

  /** A parked publisher's signal is closed, or is the one the next announced
      take closes. While it is open, the channel is full or a take is under way;
      only with a byte bound may it instead be that work is in sight, or that a
      booking has been given back since the attempt. */
  predicate ParkedForAReason(q: Queue, o: Options, x: Publisher)
    requires x.Parked?
  {
    || Closed(q, x.room)
    || (q.room == Some(x.room) &&
        (FullOrTaking(q, o) || (o.maxBytes > 0 && (Busy(q) || x.rollbacks < q.rollbacks))))
  }

  lemma WakeInvParked(q: Queue, o: Options, p: nat)
    requires WakeInv(q, o) && p < |q.pubs| && q.pubs[p].Parked?
    ensures ParkedForAReason(q, o, q.pubs[p])
  {
    if !Closed(q, q.pubs[p].room) {
      assert Waits(q, q.pubs[p]) && StillBlocked(q, o, q.pubs[p]);
    }
  }

  /** Under every interleaving, every parked publisher is parked for a reason. */
  lemma NoLostWakeup(publishers: nat, o: Options, run: seq<Action>, p: nat)
    requires EnabledRun(Start(publishers), o, run)
    requires p < |Run(Start(publishers), o, run).pubs| && Run(Start(publishers), o, run).pubs[p].Parked?
    ensures ParkedForAReason(Run(Start(publishers), o, run), o, Run(Start(publishers), o, run).pubs[p])
  {
    hide EnabledRun, Run, ParkedForAReason, WakeInv;
    StartInv(publishers, o);
    RunWake(Start(publishers), o, run);
    WakeInvParked(Run(Start(publishers), o, run), o, p);
  }

  /** A completed take closes every signal handed out before it. */
  lemma AnnounceClosesAll(publishers: nat, o: Options, run: seq<Action>, p: nat)
    requires EnabledRun(Start(publishers), o, run) && Enabled(Run(Start(publishers), o, run), o, Announce)
    requires p < |Run(Start(publishers), o, run).pubs|
    requires SignalOf(Run(Start(publishers), o, run).pubs[p]).Some?
    ensures var q := Run(Start(publishers), o, run);
            Closed(Apply(q, o, Announce), SignalOf(q.pubs[p]).value)
  {
    hide EnabledRun, Run, WakeInv, Apply;
    StartInv(publishers, o);
    RunWake(Start(publishers), o, run);
    AnnounceCloses(Run(Start(publishers), o, run), o, p);
  }

  lemma AnnounceCloses(q: Queue, o: Options, p: nat)
    requires WakeInv(q, o) && Enabled(q, o, Announce) && p < |q.pubs| && SignalOf(q.pubs[p]).Some?
    ensures Closed(Apply(q, o, Announce), SignalOf(q.pubs[p]).value)
  {
  }
}
