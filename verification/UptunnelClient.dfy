/** The Client of uptunnel/uptunnel.go with its fields updated in place. */
module UptunnelClient {
  import opened Bytes
  import opened Uptunnel

  // -------------------------------------- what a dead connection leaves behind

  /** One resend spent: the record waits again, or its budget is gone. */
  function Requeued(r: Pending, max: nat): seq<Pending>
  {
    if r.resends + 1 > max then [] else [r.(resends := r.resends + 1)]
  }

  /** The records of s that wait for the next connection: all but those the peer
      is known to have acknowledged and those past their budget. */
  function Leftover(s: seq<Pending>, known: bool, acked: nat, max: nat): seq<Pending>
  {
    if s == [] then []
    else
      Leftover(s[..|s| - 1], known, acked, max) +
      (if known && s[|s| - 1].end <= acked then [] else Requeued(s[|s| - 1], max))
  }

  /** The peer has acknowledged n bytes of connection id. */
  predicate AckedIs(acks: map<nat, nat>, id: nat, n: nat)
  {
    id in acks && acks[id] == n
  }

  /** The peer has acknowledged all but q bytes of a connection. */
  predicate Unacked(acks: map<nat, nat>, cur: Option<Stream>, q: nat)
  {
    cur.Some? && cur.value.id in acks && acks[cur.value.id] + q == cur.value.written
  }

  /** What the peer may have acknowledged of a connection by its next reading. */
  predicate MayAck(acks: map<nat, nat>, cur: Option<Stream>, more: nat)
  {
    cur.Some? && cur.value.id in acks && acks[cur.value.id] <= more <= cur.value.written
  }

  /** size more bytes were written on the connection. */
  predicate Wrote(before: Option<Stream>, after: Option<Stream>, size: nat)
  {
    before.Some? && after == Some(before.value.(written := before.value.written + size))
  }

  /** A record just written: its connection, where it ends there, and when. */
  function Stamped(r: Pending, cur: Option<Stream>, at: nat): Pending
  {
    if cur.None? then r
    else r.(conn := cur.value.id, end := cur.value.written, at := at, writes := r.writes + 1)
  }

  /** What one spent resend settles: a record past its budget is lost. */
  function GivenUp(r: Pending, max: nat): seq<Settled>
  {
    if r.resends + 1 > max then [Settled(r.(resends := r.resends + 1), false, 0, false)] else []
  }

  /** What the records of s written on connection id settle as: confirmed if the
      peer is known to have acknowledged them, lost past their budget. */
  function Settlings(s: seq<Pending>, known: bool, id: nat, acked: nat, max: nat): seq<Settled>
  {
    if s == [] then []
    else
      var r := s[|s| - 1];
      Settlings(s[..|s| - 1], known, id, acked, max) +
      (if known && r.end <= acked then [Settled(r, true, id, true)] else GivenUp(r, max))
  }

  lemma NothingLeft(known: bool, id: nat, acked: nat, max: nat)
    ensures Leftover([], known, acked, max) == [] && Settlings([], known, id, acked, max) == []
  {
  }

  /** The peer acknowledged all that ends at or before end on a connection. */
  predicate AckedTo(acks: map<nat, nat>, conn: Option<Stream>, end: nat)
  {
    conn.Some? && conn.value.id in acks && end <= acks[conn.value.id]
  }

  /** Whatever of u the peer acknowledged is in the log as confirmed. */
  predicate AckedConfirmed(u: seq<Pending>, conn: Option<Stream>, acks: map<nat, nat>, log: seq<Settled>)
  {
    conn.Some? ==>
      forall i :: 0 <= i < |u| && AckedTo(acks, conn, u[i].end) ==> Settled(u[i], true, conn.value.id, true) in log
  }

  lemma {:induction false} SettlingsConfirm(s: seq<Pending>, id: nat, acked: nat, max: nat, i: nat)
    requires i < |s| && s[i].end <= acked
    ensures Settled(s[i], true, id, true) in Settlings(s, true, id, acked, max)
  {
    if i == |s| - 1 {
    } else {
      SettlingsConfirm(s[..|s| - 1], id, acked, max, i);
    }
  }

  lemma RetiredConfirms(u: seq<Pending>, conn: Stream, acks: map<nat, nat>, acked: nat, max: nat, before: seq<Settled>, after: seq<Settled>)
    requires AckedIs(acks, conn.id, acked) && after == before + Settlings(u, true, conn.id, acked, max)
    ensures AckedConfirmed(u, Some(conn), acks, after)
  {
    hide Settlings;
    forall i | 0 <= i < |u| && AckedTo(acks, Some(conn), u[i].end)
      ensures Settled(u[i], true, conn.id, true) in after
    {
      SettlingsConfirm(u, conn.id, acked, max, i);
    }
  }

  lemma SettlingsStep(s: seq<Pending>, i: nat, known: bool, id: nat, acked: nat, max: nat)
    requires i < |s|
    ensures Settlings(s[..i + 1], known, id, acked, max) ==
            Settlings(s[..i], known, id, acked, max) +
            (if known && s[i].end <= acked then [Settled(s[i], true, id, true)] else GivenUp(s[i], max))
  {
    assert s[..i + 1][..i] == s[..i];
  }

  lemma {:induction false} LeftoverWeight(s: seq<Pending>, known: bool, acked: nat, max: nat)
    requires forall i :: 0 <= i < |s| ==> s[i].resends <= max
    ensures Weight(Leftover(s, known, acked, max), max) <= Weight(s, max) - |s|
  {
    if s == [] {
    } else {
      var t, r := s[..|s| - 1], s[|s| - 1];
      LeftoverWeight(t, known, acked, max);
      assert s == t + [r];
      WeightAppend(t, r, max);
      var before := Leftover(t, known, acked, max);
      if !(known && r.end <= acked) && r.resends + 1 <= max {
        WeightAppend(before, r.(resends := r.resends + 1), max);
      } else {
        assert Leftover(s, known, acked, max) == before;
      }
    }
  }

  lemma {:induction false} LeftoverAtLeast(s: seq<Pending>, known: bool, acked: nat, max: nat, k: int)
    requires AtLeast(s, k)
    ensures AtLeast(Leftover(s, known, acked, max), k + 1)
  {
    if s == [] {
    } else {
      LeftoverAtLeast(s[..|s| - 1], known, acked, max, k);
    }
  }

  lemma {:induction false} WeightConcat(s: seq<Pending>, t: seq<Pending>, max: nat)
    ensures Weight(s + t, max) == Weight(s, max) + Weight(t, max)
  {
    if s == [] {
      assert s + t == t;
    } else {
      WeightConcat(s[1..], t, max);
      assert (s + t)[1..] == s[1..] + t;
    }
  }

  /** One reading of the send queue: whether it succeeds, what the peer has acknowledged
      by then, and the time. */
  datatype Reading = Reading(ok: bool, more: nat, now: nat)

  // -------------------------------------------------------------------- client

  class Client {
    const addrs: nat      // len(Addrs)
    const prefer: nat     // 0 is sticky failover
    const grace: nat
    const max: nat        // MaxResends
    const canRead: bool   // every send-queue reading on this platform succeeds

    var cur: Option<Stream>
    var idx: nat
    var leftAt: Option<nat>
    var clock: nat
    var unconfirmed: seq<Pending>
    var resend: seq<Pending>
    var written: nat
    var failures: nat
    var redials: nat
    var confirmed: nat
    var resent: nat
    var lost: nat
    var peerClosed: nat
    var gauge: int
    var cbs: seq<Callback>   // callbacks due when the lock is released
    var nextId: nat
    var nextStream: nat

    // The environment's own state: the bytes the peer acknowledged, by connection.
    var acks: map<nat, nat>

    /** The client's books: the counters and callbacks above, and with them every record
        accepted, the settled log, the write history and the bytes acknowledged. */
    ghost var books: Books

    constructor (addrs: nat, prefer: nat, grace: nat, maxResends: int, canRead: bool)
      ensures this.addrs == addrs && this.prefer == prefer && this.grace == grace && this.canRead == canRead
      ensures !books.blind && !books.closed && books.wire == []
      ensures cur == None && unconfirmed == [] && resend == [] && nextId == 0 && nextStream == 0 && acks == map[]
      ensures Valid() && books.accepted == multiset{} && books.log == []
      ensures max == if maxResends > 0 then maxResends else 3
    {
      this.addrs, this.prefer, this.grace, this.canRead := addrs, prefer, grace, canRead;
      this.max := if maxResends > 0 then maxResends else 3;
      cur, idx, leftAt, clock := None, 0, None, 0;
      unconfirmed, resend, cbs := [], [], [];
      written, failures, redials, confirmed, resent, lost, peerClosed, gauge := 0, 0, 0, 0, 0, 0, 0, 0;
      nextId, nextStream := 0, 0;
      acks := map[];
      books := Books([], multiset{}, 0, map[], if maxResends > 0 then maxResends else 3, 0, 0, 0, [], false, false, []);
    }

    /** The books keep what the fields say. */
    ghost predicate Mirrored()
      reads this`books, this`nextId, this`confirmed, this`lost, this`cbs, this`acks
    {
      && books.nextId == nextId && books.max == max
      && books.confirmed == confirmed && books.lost == lost && books.cbs == cbs && books.acks == acks
    }

    /** The books balance, with hand in hand, u in flight and w waiting. */
    ghost predicate Level(hand: multiset<nat>, u: seq<Pending>, w: seq<Pending>)
      reads this`books, this`nextId, this`confirmed, this`lost, this`cbs, this`acks
    {
      Balanced(books, hand, u, w) && Mirrored()
    }

    /** Connections are numbered in the order they were made. */
    ghost predicate Wired()
      reads this`books, this`acks, this`nextStream
    {
      && (forall s :: s in acks ==> s < nextStream)
      && (forall i :: 0 <= i < |books.wire| ==> books.wire[i].conn < nextStream)
    }

    /** What is known of the live connection and the records written on it. */
    ghost predicate Flying()
      reads this`cur, this`books, this`acks, this`unconfirmed, this`clock
    {
      && (cur.None? ==> unconfirmed == [])
      && (cur.Some? ==>
            var s := cur.value;
            && s.id in acks && s.acked <= s.written && acks[s.id] <= s.written
            && (s.trusted ==> s.acked <= acks[s.id]) && (s.trusted || books.blind)
            && Flight(books.wire, unconfirmed, s.id, s.written, clock))
    }

    ghost predicate Streamed()
      reads this`cur, this`books, this`acks, this`nextStream, this`unconfirmed, this`clock
    {
      Wired() && Flying()
    }

    /** The fail-back clock runs exactly away from the preferred address. */
    ghost predicate Placed()
      reads this`idx, this`leftAt
    {
      (idx == 0 || idx < addrs) && (leftAt.Some? <==> idx != 0)
    }

    /** What holds whenever no record is in hand. */
    ghost predicate Held()
      reads this`books, this`nextId, this`confirmed, this`lost, this`cbs, this`acks, this`cur, this`nextStream, this`unconfirmed, this`clock
      reads this`idx, this`leftAt, this`resend, this`written, this`resent, this`gauge
    {
      && Level(multiset{}, unconfirmed, resend)
      && Counted()
      && gauge == |unconfirmed|
      && Streamed() && Placed()
    }

    ghost predicate Counted()
      reads this`written, this`resent, this`books
    {
      written == resent + |books.accepted| && written == |books.wire| && (canRead ==> !books.blind)
    }

    /** Records wait only while there is no connection, so no record is in flight
        while another waits. */
    ghost predicate Apart()
      reads this`resend, this`cur, this`unconfirmed
    {
      resend != [] ==> cur.None? && unconfirmed == []
    }

    /** What holds at every lock release. */
    ghost predicate Valid()
      reads this
    {
      Held() && Apart() && books.mark == |books.log|
    }

    // -------------------------------------------------------------- environment

    method Now() returns (t: nat)
      modifies this`clock
      ensures old(clock) <= clock == t
    {
      var later: nat :| later >= clock;
      clock := later;
      t := clock;
    }

    /** The reader goroutine may find the connection closed at any time. */
    method PeerCloses(clean: bool)
      requires Held() && Apart()
      modifies this`cur
      ensures cur == if old(cur).Some? && !old(cur).value.dead
                     then Some(old(cur).value.(dead := true, clean := clean)) else old(cur)
      ensures Held() && Apart()
    {
      hide Balanced;
      if cur.Some? && !cur.value.dead {
        cur := Some(cur.value.(dead := true, clean := clean));
      }
    }

    /** What a send-queue reading of the live connection may meet: ok says whether it
        succeeds, more is what the peer has acknowledged by then. */
    method Sense() returns (ok: bool, more: nat)
      requires Streamed()
      ensures (cur.Some? ==> MayAck(acks, cur, more)) && (canRead ==> ok)
    {
      ok := *;
      if canRead {
        ok := true;
      }
      more := 0;
      if cur.Some? {
        more :| acks[cur.value.id] <= more <= cur.value.written;
      }
    }

    /** A send-queue reading; one that succeeds is true. */
    method UnsentBytes(ok: bool, more: nat) returns (q: nat)
      requires Streamed() && MayAck(acks, cur, more)
      modifies this`books, this`acks
      ensures books == old(books).(acks := acks)
      ensures Streamed() && MoreAcked(old(acks), acks) && AckedIs(acks, cur.value.id, more)
      ensures ok ==> Unacked(acks, cur, q)
    {
      acks := acks[cur.value.id := more];
      books := books.(acks := acks);
      q := cur.value.written - more;
    }

    // ------------------------------------------------------------------ settling

    method ConfirmLocked(r: Pending, ghost s: Stream, ghost u: seq<Pending>, ghost w: seq<Pending>)
      requires Level(multiset{r.id}, u, w) && r.writes <= max + 1 && r.conn == s.id &&
               Recorded(books.wire, r) && Tallied(books.wire, r)
      requires (s.trusted || books.blind) && (s.trusted ==> s.id in acks && r.end <= acks[s.id])
      modifies this`confirmed, this`cbs, this`books
      ensures Level(multiset{}, u, w)
      ensures books == Settle(old(books), Settled(r, true, s.id, s.trusted))
    {
      hide Balanced;
      ghost var e := Settled(r, true, s.id, s.trusted);
      SettleBalances(books, e, u, w);
      confirmed := confirmed + 1;
      cbs := cbs + [Callback(r.id, true)];
      books := Settle(books, e);
    }

    method LoseLocked(r: Pending, ghost u: seq<Pending>, ghost w: seq<Pending>)
      requires Level(multiset{r.id}, u, w) && r.writes <= max + 1 && Tallied(books.wire, r) && (r.resends == max + 1 || books.closed)
      modifies this`lost, this`cbs, this`books
      ensures Level(multiset{}, u, w)
      ensures books == Settle(old(books), Settled(r, false, 0, false))
    {
      hide Balanced;
      ghost var e := Settled(r, false, 0, false);
      SettleBalances(books, e, u, w);
      lost := lost + 1;
      cbs := cbs + [Callback(r.id, false)];
      books := Settle(books, e);
    }

    method RequeueLocked(r: Pending, ghost u: seq<Pending>)
      requires Level(multiset{r.id}, u, resend) && InFlight(r, nextId, max, books.wire)
      modifies this`resend, this`lost, this`cbs, this`books
      ensures Settles(old(books), books)
      ensures Level(multiset{}, u, resend)
      ensures resend == old(resend) + Requeued(r, max)
      ensures books.log == old(books).log + GivenUp(r, max)
    {
      hide Balanced;
      var r' := r.(resends := r.resends + 1);
      if r'.resends > max {
        LoseLocked(r', u, resend);
        return;
      }
      QueueBalances(books, r', u, resend);
      resend := resend + [r'];
    }

    /** chargeResendsLocked: one resend spent on every waiting record. */
    method ChargeResendsLocked()
      requires Held() && unconfirmed == []
      modifies this`resend, this`lost, this`cbs, this`books
      ensures Settles(old(books), books)
      ensures Held() && books.log == old(books).log + Settlings(old(resend), false, 0, 0, max)
      ensures resend == Leftover(old(resend), false, 0, max)
    {
      hide Balanced, Leftover, Settlings, GivenUp, Requeued;
      NothingLeft(false, 0, 0, max);
      var waiting := resend;
      WaitingAsFlying(books, resend);
      resend := [];
      var i := 0;
      assert waiting[..0] == [];
      while i < |waiting|
        invariant Settles(old(books), books)
        invariant 0 <= i <= |waiting|
        invariant Level(multiset{}, waiting[i..], resend)
        invariant books.log == old(books).log + Settlings(waiting[..i], false, 0, 0, max)
        invariant resend == Leftover(waiting[..i], false, 0, max)
      {
        var r := waiting[i];
        assert waiting[i..][1..] == waiting[i + 1..];
        LeftoverStep(waiting, i, false, 0, max);
        SettlingsStep(waiting, i, false, 0, 0, max);
        TakeBalances(books, waiting[i..], resend);
        BalancedInFlight(books, waiting[i..], resend);
        RequeueLocked(r, waiting[i + 1..]);
        i := i + 1;
      }
      assert waiting[..i] == waiting && waiting[i..] == [];
    }

    /** retireLocked: the connection is closed and its records settled. After a
        clean close with a reading, exactly what the peer acknowledged is
        confirmed; everything else waits or has spent its budget. */
    method RetireLocked(clean: bool)
      requires Held()
      modifies this`cur, this`unconfirmed, this`resend, this`gauge, this`books, this`acks, this`confirmed, this`lost, this`cbs
      ensures Settles(old(books).(acks := acks), books)
      ensures Held() && cur.None? && unconfirmed == [] && old(books).log <= books.log
      ensures exists known, s: Stream :: Retired(old(unconfirmed), old(resend), old(books).log, known, s) &&
                (known ==> clean && old(cur).Some? && s.id == old(cur).value.id && AckedIs(acks, s.id, s.acked)) &&
                (canRead && clean && old(cur).Some? ==> known)
    {
      hide Balanced, Flight, Placed;
      if cur.None? {
        assert Retired(unconfirmed, resend, books.log, false, Stream(0, 0, 0, false, false, false));
        return;
      }
      var s, known := cur.value, false;
      if clean {
        known, s := ReadClosed();
      }
      FlightFacts(books.wire, unconfirmed, cur.value.id, cur.value.written, clock);
      cur := None;
      SettleFlight(s, known);
    }

    /** The records of a retired connection have been settled or wait, in order. */
    ghost predicate Retired(u: seq<Pending>, w: seq<Pending>, before: seq<Settled>, known: bool, s: Stream)
      reads this
    {
      && resend == w + Leftover(u, known, s.acked, max)
      && books.log == before + Settlings(u, known, s.id, s.acked, max)
    }

    method SenseHeld() returns (ok: bool, more: nat)
      requires Held()
      ensures (cur.Some? ==> MayAck(acks, cur, more)) && (canRead ==> ok)
    {
      hide Balanced, Flight;
      ok, more := Sense();
    }

    /** A reading disturbs nothing settled. */
    method ReadQueue(ok: bool, more: nat) returns (q: nat)
      requires MayAck(acks, cur, more) && Held()
      modifies this`books, this`acks
      ensures books == old(books).(acks := acks)
      ensures AckedIs(acks, cur.value.id, more) && (ok ==> Unacked(acks, cur, q))
      ensures Held()
    {
      hide Balanced, Flight, MoreAcked;
      q := UnsentBytes(ok, more);
      AcksBalance(old(books), acks, multiset{}, unconfirmed, resend);
    }

    /** The reading of a connection the peer closed cleanly. */
    method ReadClosed() returns (known: bool, s: Stream)
      requires cur.Some? && Held()
      modifies this`books, this`acks
      ensures books == old(books).(acks := acks)
      ensures canRead ==> known
      ensures s.id == cur.value.id && (known ==> AckedIs(acks, s.id, s.acked))
      ensures Held()
    {
      hide Held;
      var ok, more := SenseHeld();
      var q := ReadQueue(ok, more);
      s, known := cur.value, false;
      if ok && q <= s.written {
        s := s.(acked := s.written - q, trusted := true);
        known := true;
      }
    }

    /** The loop of retireLocked over the records of a connection just closed. */
    method SettleFlight(s: Stream, known: bool)
      requires Level(multiset{}, unconfirmed, resend) && gauge == |unconfirmed|
      requires OnStream(books.wire, unconfirmed, s.id)
      requires known ==> s.id in acks && s.acked <= acks[s.id]
      modifies this`unconfirmed, this`resend, this`gauge, this`confirmed, this`lost, this`cbs, this`books
      ensures Settles(old(books), books)
      ensures Level(multiset{}, [], resend) && unconfirmed == [] && gauge == 0
      ensures old(books).log <= books.log
      ensures Retired(old(unconfirmed), old(resend), old(books).log, known, s)
    {
      hide Recorded, Tallied, Balanced, Leftover, Settlings, GivenUp, Requeued;
      NothingLeft(known, s.id, s.acked, max);
      var todo := unconfirmed;
      var i := 0;
      assert todo[..0] == [];
      while i < |todo|
        invariant Settles(old(books), books)
        invariant 0 <= i <= |todo|
        invariant Level(multiset{}, todo[i..], resend)
        invariant books.log == old(books).log + Settlings(todo[..i], known, s.id, s.acked, max)
        invariant resend == old(resend) + Leftover(todo[..i], known, s.acked, max)
        invariant gauge == |todo| - i
      {
        var r := todo[i];
        assert todo[i..][1..] == todo[i + 1..];
        LeftoverStep(todo, i, known, s.acked, max);
        SettlingsStep(todo, i, known, s.id, s.acked, max);
        TakeBalances(books, todo[i..], resend);
        BalancedInFlight(books, todo[i..], resend);
        gauge := gauge - 1;
        if known && r.end <= s.acked {
          ConfirmLocked(r, s.(trusted := true), todo[i + 1..], resend);
        } else {
          RequeueLocked(r, todo[i + 1..]);
        }
        i := i + 1;
      }
      assert todo[..i] == todo && todo[i..] == [];
      unconfirmed := [];
    }

    /** The reading at the head of pollLocked. Without one every byte written
        counts as acknowledged. */
    method ReadAcked(read: bool, more: nat)
      requires MayAck(acks, cur, more) && (canRead ==> read) && Held()
      modifies this`cur, this`books, this`acks
      ensures books == old(books).(acks := acks, blind := old(books).blind || !read)
      ensures CountsAs(old(cur), cur, read, more) && AckedIs(acks, old(cur).value.id, more)
      ensures Held() && (books.blind <==> old(books).blind || !read)
    {
      hide Balanced, Flight, Placed;
      var q := ReadQueue(read, more);
      var s := cur.value;
      if read && q <= s.written {
        cur := Some(s.(acked := s.written - q, trusted := true));
      } else if !read {
        cur := Some(s.(acked := s.written, trusted := false));
        BlindBalances(books, unconfirmed, resend);
        books := books.(blind := true);
      }
    }

    /** The connection after a reading: the acknowledged bytes if it succeeded, and
        every byte written if it did not. */
    static predicate CountsAs(before: Option<Stream>, after: Option<Stream>, read: bool, more: nat)
    {
      && before.Some?
      && after == Some(before.value.(acked := if read then more else before.value.written, trusted := read))
    }

    /** A record that pollLocked may confirm; over: too many are held to wait. */
    static predicate Eligible(r: Pending, acked: nat, now: nat, grace: nat, over: bool)
    {
      r.end <= acked && (over || now - r.at >= grace)
    }

    /** The eligible records of s are its first n. */
    static ghost predicate ExactPrefix(s: seq<Pending>, n: nat, acked: nat, now: nat, grace: nat)
    {
      forall i :: 0 <= i < |s| ==> (Eligible(s[i], acked, now, grace, |s| > MAX_UNCONFIRMED) <==> i < n)
    }

    /** What the first n records of u settle as when connection s confirms them. */
    static function Confirmations(u: seq<Pending>, n: nat, s: Stream): seq<Settled>
      requires n <= |u|
    {
      seq(n, i requires 0 <= i < n => Settled(u[i], true, s.id, s.trusted))
    }

    /** Of the records in flight the first n were confirmed on connection s, in order,
        and these are exactly the eligible ones. */
    ghost predicate Polled(u: seq<Pending>, before: seq<Settled>, n: nat, s: Option<Stream>)
      reads this
    {
      && n <= |u| && unconfirmed == u[n..]
      && (u != [] ==>
            && s.Some?
            && books.log == before + Confirmations(u, n, s.value)
            && ExactPrefix(u, n, s.value.acked, clock, grace)
            && Within(u, s.value.written, clock))
      && (u == [] ==> books.log == before)
    }

    /** pollLocked. Under a monotone clock its early break confirms exactly the
        eligible records, in order. The environment gives the outcome of the reading,
        the bytes the peer has acknowledged and the time. */
    method PollLocked(read: bool, more: nat, now: nat) returns (n: nat)
      requires Held() && (cur.Some? ==> clock <= now && (canRead ==> read) && MayAck(acks, cur, more))
      modifies this`cur, this`clock, this`unconfirmed, this`gauge, this`books, this`acks, this`confirmed, this`cbs
      ensures Settles(old(books).(acks := acks, blind := books.blind), books)
      ensures Held() && (cur.None? <==> old(cur).None?) && old(books).log <= books.log && old(clock) <= clock
      ensures Polled(old(unconfirmed), old(books).log, n, cur)
      ensures old(unconfirmed) != [] ==>
                clock == now && CountsAs(old(cur), cur, read, more) && AckedIs(acks, old(cur).value.id, more)
      ensures ConfirmsExactly(old(unconfirmed), n, read, more, now, grace)
    {
      hide Balanced, Flight, ExactPrefix, ConfirmsExactly, Confirmations;
      n := 0;
      if cur.None? || |unconfirmed| == 0 {
        UnackedNone(read, more, now, grace);
        return;
      }
      ghost var u := unconfirmed;
      ReadAcked(read, more);
      n := ConfirmEligible(now);
      UnackedExact(u, n, cur.value, read, more, now, grace);
    }

    /** A record in flight is confirmed exactly when the peer has acknowledged its last byte
        or the reading failed, and it is past its grace or too many are held. */
    static ghost predicate ConfirmsExactly(u: seq<Pending>, n: nat, read: bool, more: nat, now: nat, grace: nat)
    {
      forall i :: 0 <= i < |u| ==>
        (i < n <==> (u[i].end <= more || !read) && (|u| > 0x1_0000 || now - u[i].at >= grace))
    }

    static lemma UnackedNone(read: bool, more: nat, now: nat, grace: nat)
      ensures ConfirmsExactly([], 0, read, more, now, grace)
    {
    }

    static lemma UnackedExact(u: seq<Pending>, n: nat, s: Stream, read: bool, more: nat, now: nat, grace: nat)
      requires Within(u, s.written, now) && s.acked == (if read then more else s.written)
      requires ExactPrefix(u, n, s.acked, now, grace)
      ensures ConfirmsExactly(u, n, read, more, now, grace)
    {
      forall i | 0 <= i < |u|
        ensures i < n <==> (u[i].end <= more || !read) && (|u| > 0x1_0000 || now - u[i].at >= grace)
      {
        assert u[i].end <= s.written && u[i].at <= now;
        var eligible := Eligible(u[i], s.acked, now, grace, |u| > MAX_UNCONFIRMED);
        assert eligible <==> i < n;
        assert eligible <==> u[i].end <= s.acked && (|u| > 0x1_0000 || now - u[i].at >= grace);
      }
    }

    /** The rest of pollLocked, once acked has been read. */
    method ConfirmEligible(now: nat) returns (n: nat)
      requires cur.Some? && clock <= now && Held()
      modifies this`clock, this`unconfirmed, this`gauge, this`confirmed, this`cbs, this`books
      ensures Settles(old(books), books)
      ensures clock == now && Polled(old(unconfirmed), old(books).log, n, cur)
      ensures Held()
    {
      hide Balanced, Placed, Flight, ExactPrefix;
      FlightLater(books.wire, unconfirmed, cur.value.id, cur.value.written, clock, now);
      FlightFacts(books.wire, unconfirmed, cur.value.id, cur.value.written, now);
      clock := now;
      n := ConfirmPrefix(cur.value, now);
      FlightSlice(books.wire, unconfirmed, n, cur.value.id, cur.value.written, clock);
      assert unconfirmed[0..] == unconfirmed;
      if n > 0 {
        unconfirmed := unconfirmed[n..];
        gauge := gauge - n;
      }
    }

    /** The loop of pollLocked: the longest eligible prefix is confirmed. */
    method ConfirmPrefix(s: Stream, now: nat) returns (n: nat)
      requires Level(multiset{}, unconfirmed, resend) && Ordered(unconfirmed)
      requires OnStream(books.wire, unconfirmed, s.id)
      requires (s.trusted || books.blind) && (s.trusted ==> s.id in acks && s.acked <= acks[s.id])
      modifies this`confirmed, this`cbs, this`books
      ensures Settles(old(books), books)
      ensures n <= |unconfirmed| && Level(multiset{}, unconfirmed[n..], resend)
      ensures books.log == old(books).log + Confirmations(unconfirmed, n, s)
      ensures ExactPrefix(unconfirmed, n, s.acked, now, grace)
    {
      hide Balanced, Recorded, Tallied;
      var over := |unconfirmed| > MAX_UNCONFIRMED;
      n := 0;
      while n < |unconfirmed|
        invariant Settles(old(books), books)
        invariant n <= |unconfirmed|
        invariant Level(multiset{}, unconfirmed[n..], resend)
        invariant books.log == old(books).log + Confirmations(unconfirmed, n, s)
        invariant forall i :: 0 <= i < n ==> Eligible(unconfirmed[i], s.acked, now, grace, over)
      {
        var r := unconfirmed[n];
        if r.end > s.acked || (!over && now - r.at < grace) {
          break;
        }
        assert unconfirmed[n..][1..] == unconfirmed[n + 1..];
        TakeBalances(books, unconfirmed[n..], resend);
        BalancedInFlight(books, unconfirmed[n..], resend);
        ConfirmLocked(r, s, unconfirmed[n + 1..], resend);
        assert Confirmations(unconfirmed, n + 1, s) == Confirmations(unconfirmed, n, s) + [Settled(r, true, s.id, s.trusted)];
        n := n + 1;
      }
    }

    // ------------------------------------------------------- addresses and dialing

    method AdvanceLocked()
      requires Placed()
      modifies this`idx, this`leftAt, this`clock
      ensures Placed() && old(clock) <= clock
      ensures addrs > 1 ==> idx == (old(idx) + 1) % addrs
      ensures addrs <= 1 ==> idx == old(idx)
    {
      if addrs <= 1 {
        return;
      }
      idx := (idx + 1) % addrs;
      if idx != 0 && leftAt.None? {
        var t := Now();
        leftAt := Some(t);
      }
      if idx == 0 {
        leftAt := None;
      }
    }

    /** maybeFailBackLocked never touches a record: it waits while any is in
        flight, and past Prefer it leaves the client on the preferred address. */
    method MaybeFailBackLocked()
      requires Held() && Apart()
      modifies this`cur, this`idx, this`leftAt, this`clock
      ensures Held() && Apart() && old(clock) <= clock
      ensures (idx, leftAt, cur) == (old(idx), old(leftAt), old(cur)) ||
              (idx == 0 && leftAt.None? && cur.None? && unconfirmed == [])
      ensures prefer > 0 && idx != 0 ==> unconfirmed != [] || clock - leftAt.value < prefer
    {
      hide Balanced, Wired, Counted;
      if prefer == 0 || idx == 0 || leftAt.None? {
        return;
      }
      var t := Now();
      if t - leftAt.value < prefer {
        return;
      }
      if cur.Some? && |unconfirmed| > 0 {
        return;
      }
      idx := 0;
      leftAt := None;
      cur := None;
    }

    method EnsureConnLocked(dialed: bool) returns (ok: bool)
      requires Held()
      modifies this`cur, this`redials, this`nextStream, this`books, this`acks
      ensures books == old(books).(acks := acks)
      ensures (ok <==> cur.Some?) && (ok <==> old(cur).Some? || (dialed && addrs > 0))
      ensures old(cur).Some? ==> cur == old(cur) && acks == old(acks)
      ensures old(cur).None? ==> unconfirmed == []
      ensures ok && old(cur).None? ==>
                cur == Some(Stream(old(nextStream), 0, 0, true, false, false)) && acks == old(acks)[old(nextStream) := 0]
      ensures Held()
    {
      hide BytesOn, Balanced, Flight, Placed;
      if cur.Some? {
        return true;
      }
      if addrs == 0 || !dialed {
        return false;
      }
      ghost var before := books;
      NoBytesOn(books.wire, nextStream);
      FlightNone(books.wire, nextStream, 0, clock);
      cur := Some(Stream(nextStream, 0, 0, true, false, false));
      acks := acks[nextStream := 0];
      books := books.(acks := acks);
      nextStream := nextStream + 1;
      redials := redials + 1;
      AcksBalance(before, acks, multiset{}, unconfirmed, resend);
      return true;
    }

    // -------------------------------------------------------------------- writing

    /** writeLocked: one write in a single call; on success the write is the history's
        last, and the record, ending at the last byte of the connection, is last among
        those in flight. */
    method WriteLocked(r: Pending, sent: bool) returns (ok: bool)
      requires cur.Some? && Streamed()
      modifies this`cur, this`clock, this`unconfirmed, this`gauge, this`written, this`books
      ensures cur.Some? && Streamed() && ok == sent
      ensures books == old(books).(wire := books.wire)
      ensures !ok ==> unconfirmed == old(unconfirmed) && gauge == old(gauge) && written == old(written) && books.wire == old(books).wire
      ensures ok ==>
                && gauge == old(gauge) + 1 && written == old(written) + 1
                && Wrote(old(cur), cur, r.size)
                && unconfirmed == old(unconfirmed) + [Stamped(r, cur, clock)]
                && books.wire == old(books).wire + [Write(cur.value.id, r.id, r.size, clock)]
    {
      hide Recorded, Flight;
      if !sent {
        return false;
      }
      var s := cur.value;
      ghost var u, before := unconfirmed, clock;
      cur := Some(s.(written := s.written + r.size));
      var t := Now();
      var r' := r.(conn := s.id, end := s.written + r.size, at := t, writes := r.writes + 1);
      unconfirmed := unconfirmed + [r'];
      gauge := gauge + 1;
      written := written + 1;
      FlightLater(books.wire, u, s.id, s.written, before, t);
      FlightGrows(books.wire, u, r', s.written, t);
      books := books.(wire := books.wire + [Write(s.id, r.id, r.size, t)]);
      return true;
    }

    /** breakLocked: a connection a write failed on is dropped. */
    method BreakLocked()
      requires Held()
      modifies this
      ensures Kept(old(books).accepted, old(nextId), old(books).mark, old(books).closed, old(peerClosed)) && Held() && cur.None? && unconfirmed == [] && old(books).log <= books.log
      ensures failures == old(failures) + 1
      ensures Budget() <= old(Budget()) && (forall k :: old(AllAtLeast(k)) ==> AllAtLeast(k))
    {
      hide Held, Weight, AtLeast, Leftover, Settlings;
      ghost var u, w := unconfirmed, resend;
      InFlightBudget();
      RetireLocked(false);
      LeftoverBudget(u, w, resend, max);
      DialFailed();
    }

    lemma InFlightBudget()
      requires Held()
      ensures forall i :: 0 <= i < |unconfirmed| ==> unconfirmed[i].resends <= max
    {
      BalancedInFlight(books, unconfirmed, resend);
    }

    /** What the inner steps leave alone. */
    ghost predicate Kept(a: multiset<nat>, id: nat, m: nat, c: bool, p: nat)
      reads this
    {
      books.accepted == a && nextId == id && books.mark == m && books.closed == c && peerClosed == p
    }

    /** The resends that the records not yet settled can still spend. */
    ghost function Budget(): int
      reads this
    {
      Weight(unconfirmed, max) + Weight(resend, max)
    }

    ghost predicate AllAtLeast(k: int)
      reads this
    {
      AtLeast(unconfirmed, k) && AtLeast(resend, k)
    }

    /** One turn of flushResendLocked: the head of resend is written again. */
    method ResendHead() returns (ok: bool)
      requires Held() && cur.Some? && resend != []
      modifies this`cur, this`clock, this`unconfirmed, this`resend, this`gauge, this`written, this`resent, this`books
      ensures books == old(books).(wire := books.wire)
      ensures Held() && cur.Some?
      ensures !ok ==> unconfirmed == old(unconfirmed) && resend == old(resend)
      ensures ok ==> resend == old(resend)[1..]
      ensures Budget() == old(Budget()) && (forall k :: old(AllAtLeast(k)) ==> AllAtLeast(k))
    {
      hide Balanced, Tallied, Streamed, Placed, Weight, AtLeast;
      var r := resend[0];
      ghost var u, before := unconfirmed, books;
      BalancedInFlight(before, u, resend);
      var sent: bool := *;
      ok := WriteLocked(r, sent);
      if !ok {
        return;
      }
      ghost var r', x := Stamped(r, cur, clock), Write(cur.value.id, r.id, r.size, clock);
      assert unconfirmed == u + [r'] && books.wire == before.wire + [x];
      ResendBalances(before, u, resend, r', x);
      ResendBudget(u, resend, r', max);
      resend := resend[1..];
      resent := resent + 1;
    }

    /** flushResendLocked: every waiting record is written, or the connection
        breaks and every record not settled waits again. */
    method FlushResendLocked() returns (ok: bool)
      requires Held() && cur.Some?
      modifies this
      ensures Kept(old(books).accepted, old(nextId), old(books).mark, old(books).closed, old(peerClosed)) && Held() && old(books).log <= books.log
      ensures if ok then cur.Some? && resend == [] else cur.None? && unconfirmed == []
      ensures failures == old(failures) + (if ok then 0 else 1) && (ok ==> idx == old(idx))
      ensures Budget() <= old(Budget()) && (forall k :: old(AllAtLeast(k)) ==> AllAtLeast(k))
    {
      hide Balanced, Streamed, Placed, Budget, AllAtLeast;
      while resend != []
        invariant failures == old(failures) && idx == old(idx)
        invariant Kept(old(books).accepted, old(nextId), old(books).mark, old(books).closed, old(peerClosed)) && Held() && cur.Some? && old(books).log <= books.log
        invariant Budget() <= old(Budget()) && (forall k :: old(AllAtLeast(k)) ==> AllAtLeast(k))
        decreases |resend|
      {
        ok := ResendHead();
        if !ok {
          BreakLocked();
          return;
        }
      }
      return true;
    }

    /** A new record is only ever written when nothing waits. */
    method WriteNew(rec: Pending, sent: bool) returns (ok: bool)
      requires Held() && cur.Some? && resend == []
      requires rec.id < nextId && rec.id !in books.accepted && rec.resends == 0 && rec.writes == 0
      modifies this`cur, this`clock, this`unconfirmed, this`gauge, this`written, this`books
      ensures books == old(books).(accepted := books.accepted, wire := books.wire)
      ensures Held() && cur.Some? && ok == sent
      ensures books.accepted == old(books).accepted + (if ok then multiset{rec.id} else multiset{})
      ensures !ok ==> unconfirmed == old(unconfirmed)
      ensures ok ==> unconfirmed == old(unconfirmed) + [Stamped(rec, cur, clock)] && Wrote(old(cur), cur, rec.size)
      ensures ok ==> books.wire == old(books).wire + [Write(cur.value.id, rec.id, rec.size, clock)]
    {
      hide Balanced, Tallied, Flight, Placed;
      ghost var u, before := unconfirmed, books;
      ok := WriteLocked(rec, sent);
      if !ok {
        return;
      }
      ghost var x := books.wire[|before.wire|];
      AcceptBalances(before, rec.id, u, resend);
      books := books.(accepted := books.accepted + multiset{rec.id});
      WriteBalances(before.(accepted := books.accepted), x, u, resend);
      NewTallied(before, u, resend, rec);
      TalliedNow(before.wire, rec, unconfirmed[|u|], x);
      FlyBalances(books, unconfirmed[|u|], u, resend);
    }

    /** sendLocked: waiting records first, then rec (None: flush only), with one
        failover retry. A failure leaves no connection and nothing in flight. */
    method SendLocked(rec: Option<Pending>) returns (ok: bool)
      requires Held() && Apart()
      requires rec.Some? ==> rec.value.id < nextId && rec.value.id !in books.accepted &&
                             rec.value.resends == 0 && rec.value.writes == 0
      modifies this
      ensures Held() && old(books).log <= books.log && nextId == old(nextId) && books.mark == old(books).mark
      ensures books.closed == old(books).closed && peerClosed == old(peerClosed)
      ensures Apart()
      ensures if ok then cur.Some? && resend == [] else cur.None? && unconfirmed == []
      ensures if ok then old(failures) <= failures <= old(failures) + 1 else failures == old(failures) + 2
      ensures failures == old(failures) ==> idx == old(idx)
      ensures books.accepted == old(books).accepted + (if ok && rec.Some? then multiset{rec.value.id} else multiset{})
      ensures ok && rec.Some? ==> unconfirmed != [] && unconfirmed[|unconfirmed| - 1].id == rec.value.id
      ensures ok && rec.Some? ==> LastWrite(books.wire, rec.value.id, rec.value.size)
      ensures rec.None? ==> Budget() <= old(Budget()) && (forall k :: old(AllAtLeast(k)) ==> AllAtLeast(k))
    {
      hide Balanced, Streamed, Placed, Budget, AllAtLeast;
      var attempt := 0;
      while attempt < 2
        invariant attempt <= 2 && Kept(old(books).accepted, old(nextId), old(books).mark, old(books).closed, old(peerClosed)) && Held() && old(books).log <= books.log
        invariant failures == old(failures) + attempt && (attempt == 0 ==> idx == old(idx))
        invariant attempt > 0 ==> cur.None? && unconfirmed == []
        invariant rec.None? ==> Budget() <= old(Budget()) && (forall k :: old(AllAtLeast(k)) ==> AllAtLeast(k))
      {
        ok := Attempt(rec);
        if ok {
          return;
        }
        attempt := attempt + 1;
      }
      return false;
    }

    method DialFailed()
      requires Held()
      modifies this`failures, this`idx, this`leftAt, this`clock
      ensures Held() && failures == old(failures) + 1
    {
      hide Balanced;
      failures := failures + 1;
      AdvanceLocked();
    }

    method AdvanceHeld()
      requires Held()
      modifies this`idx, this`leftAt, this`clock
      ensures Held() && (addrs > 1 ==> idx == (old(idx) + 1) % addrs) && (addrs <= 1 ==> idx == old(idx))
    {
      hide Balanced;
      AdvanceLocked();
    }

    method CountPeerClosed()
      requires Held()
      modifies this`peerClosed
      ensures Held() && peerClosed == old(peerClosed) + 1
    {
      hide Balanced;
      peerClosed := peerClosed + 1;
    }

    /** One attempt of sendLocked. */
    method Attempt(rec: Option<Pending>) returns (ok: bool)
      requires Held()
      requires rec.Some? ==> rec.value.id < nextId && rec.value.id !in books.accepted &&
                             rec.value.resends == 0 && rec.value.writes == 0
      modifies this
      ensures Held() && old(books).log <= books.log && nextId == old(nextId) && books.mark == old(books).mark
      ensures books.closed == old(books).closed && peerClosed == old(peerClosed)
      ensures if ok then cur.Some? && resend == [] else cur.None? && unconfirmed == []
      ensures failures == old(failures) + (if ok then 0 else 1) && (ok ==> idx == old(idx))
      ensures books.accepted == old(books).accepted + (if ok && rec.Some? then multiset{rec.value.id} else multiset{})
      ensures ok && rec.Some? ==> unconfirmed != [] && unconfirmed[|unconfirmed| - 1].id == rec.value.id
      ensures ok && rec.Some? ==> LastWrite(books.wire, rec.value.id, rec.value.size)
      ensures rec.None? ==> Budget() <= old(Budget()) && (forall k :: old(AllAtLeast(k)) ==> AllAtLeast(k))
    {
      hide Held, Weight, AtLeast;
      var dialed: bool := *;
      ok := EnsureConnLocked(dialed);
      if !ok {
        DialFailed();
        return;
      }
      ok := FlushResendLocked();
      if !ok || rec.None? {
        return;
      }
      var sent: bool := *;
      ok := WriteNew(rec.value, sent);
      if !ok {
        BreakLocked();
      }
    }

    static function Once(b: bool): nat { if b then 1 else 0 }

    static predicate Dead(c: Option<Stream>) { c.Some? && c.value.dead }

    static predicate Clean(c: Option<Stream>) { c.Some? && c.value.clean }

    /** reapLocked: a connection its reader saw closed is retired. */
    method ReapLocked()
      requires Held() && Apart()
      modifies this
      ensures if Dead(old(cur)) then cur.None? && unconfirmed == []
              else && cur == old(cur) && unconfirmed == old(unconfirmed) && resend == old(resend)
                   && books.log == old(books).log && acks == old(acks) && clock == old(clock) && leftAt == old(leftAt)
      ensures canRead && Dead(old(cur)) && Clean(old(cur)) ==> AckedConfirmed(old(unconfirmed), old(cur), acks, books.log)
      ensures failures == old(failures) && (idx != old(idx) ==> Dead(old(cur)) && !Clean(old(cur)))
      ensures Kept(old(books).accepted, old(nextId), old(books).mark, old(books).closed, old(peerClosed) + Once(Dead(old(cur))))
      ensures Held() && Apart() && old(books).log <= books.log
    {
      hide Held, AckedConfirmed, Leftover, Settlings;
      ghost var conn, u, w, before := cur, unconfirmed, resend, books.log;
      if cur.None? || !cur.value.dead {
        return;
      }
      CountPeerClosed();
      var clean := cur.value.clean;
      RetireLocked(clean);
      ghost var known, s: Stream :| Retired(u, w, before, known, s) && (canRead && clean ==> known) &&
                                    (known ==> s.id == conn.value.id && AckedIs(acks, s.id, s.acked));
      if known {
        RetiredConfirms(u, conn.value, acks, s.acked, max, before, books.log);
      }
      if !clean {
        AdvanceHeld();
      }
    }

    /** The lock is released and the callbacks due are run. */
    method Release() returns (calls: seq<Callback>)
      requires Held() && Apart()
      modifies this`cbs, this`books
      ensures books == old(books).(mark := |books.log|, cbs := [])
      ensures Valid() && calls == Callbacks(books.log[old(books).mark..])
    {
      hide Balanced, Flight;
      MarkBalances(books, unconfirmed, resend);
      DueCalls(books, unconfirmed, resend);
      calls := cbs;
      cbs := [];
      books := books.(mark := |books.log|, cbs := []);
    }

    method TakeId()
      requires Held()
      modifies this`nextId, this`books
      ensures old(Apart()) ==> Apart()
      ensures Held() && nextId == old(nextId) + 1 && old(nextId) !in books.accepted
      ensures books == old(books).(nextId := nextId)
    {
      hide Balanced;
      NextIdBalances(books, unconfirmed, resend);
      nextId := nextId + 1;
      books := books.(nextId := books.nextId + 1);
    }

    // ----------------------------------------------------------- public operations

    /** pollLocked, whatever the reading and the time. */
    method PollAny()
      requires Held()
      modifies this`cur, this`clock, this`unconfirmed, this`gauge, this`books, this`acks, this`confirmed, this`cbs
      ensures Settles(old(books).(acks := acks, blind := books.blind), books)
      ensures Held() && (cur.None? <==> old(cur).None?) && old(books).log <= books.log && old(clock) <= clock
      ensures old(Apart()) ==> Apart()
      ensures old(unconfirmed) == [] ==> unconfirmed == []
    {
      hide Held, Polled, MayAck, CountsAs, AckedIs, ConfirmsExactly;
      var e := NextReading();
      var n := PollLocked(e.ok, e.more, e.now);
      PolledNone(old(unconfirmed), old(books).log, n, cur);
    }

    lemma Nothing(conn: Option<Stream>, u: seq<Pending>)
      requires Held() && Apart() && conn == cur && u == unconfirmed
      ensures resend != [] ==> conn.None? && u == []
    {
    }

    lemma PolledNone(u: seq<Pending>, before: seq<Settled>, n: nat, s: Option<Stream>)
      requires Polled(u, before, n, s)
      ensures u == [] ==> unconfirmed == []
    {
    }

    /** What the next reading may be. */
    predicate MayRead(e: Reading)
      reads this
    {
      cur.Some? ==> clock <= e.now && (canRead ==> e.ok) && MayAck(acks, cur, e.more)
    }

    method NextReading() returns (e: Reading)
      requires Held()
      ensures MayRead(e)
    {
      hide Held;
      var ok, more := SenseHeld();
      var now: nat :| now >= clock;
      e := Reading(ok, more, now);
    }

    /** A call that begins with a live connection, the records u in flight on it and the
        log before confirms first, in order, exactly those of u that reading e makes
        eligible. */
    static ghost predicate Began(conn: Option<Stream>, u: seq<Pending>, before: seq<Settled>, after: seq<Settled>,
                                 e: Reading, grace: nat)
    {
      conn.Some? && u != [] ==>
        exists n: nat :: n <= |u| && before + Confirmations(u, n, ReadStream(conn.value, e)) <= after
                         && ExactPrefix(u, n, ReadStream(conn.value, e).acked, e.now, grace)
    }

    /** The connection as a reading leaves it. */
    static function ReadStream(s: Stream, e: Reading): Stream
    {
      s.(acked := if e.ok then e.more else s.written, trusted := e.ok)
    }

    static lemma BeganLater(conn: Option<Stream>, u: seq<Pending>, before: seq<Settled>, after: seq<Settled>,
                            later: seq<Settled>, e: Reading, grace: nat)
      requires Began(conn, u, before, after, e, grace) && after <= later
      ensures Began(conn, u, before, later, e, grace)
    {
      hide ExactPrefix, Confirmations;
      if conn.Some? && u != [] {
        var n: nat :| n <= |u| && before + Confirmations(u, n, ReadStream(conn.value, e)) <= after
                      && ExactPrefix(u, n, ReadStream(conn.value, e).acked, e.now, grace);
        assert before + Confirmations(u, n, ReadStream(conn.value, e)) <= later;
      }
    }

    lemma BeganNow(conn: Option<Stream>, u: seq<Pending>, before: seq<Settled>, n: nat, e: Reading)
      requires Polled(u, before, n, cur)
      requires u != [] ==> clock == e.now && CountsAs(conn, cur, e.ok, e.more)
      ensures Began(conn, u, before, books.log, e, grace)
    {
      hide ExactPrefix, Confirmations, Within;
      if conn.Some? && u != [] {
        assert cur.value == ReadStream(conn.value, e);
        assert before + Confirmations(u, n, ReadStream(conn.value, e)) <= books.log;
      }
    }

    /** How Send and Poll begin: a dead connection is reaped, and otherwise the records
        in flight are polled by the reading e. */
    method Refresh(e: Reading)
      requires Held() && Apart() && MayRead(e)
      modifies this
      ensures Kept(old(books).accepted, old(nextId), old(books).mark, old(books).closed, old(peerClosed) + Once(Dead(old(cur))))
      ensures if Dead(old(cur)) then cur.None? && unconfirmed == []
              else && Began(old(cur), old(unconfirmed), old(books).log, books.log, e, grace) && resend == old(resend)
                   && idx == old(idx) && leftAt == old(leftAt) && old(clock) <= clock
      ensures old(unconfirmed) == [] ==> unconfirmed == []
      ensures failures == old(failures)
      ensures old(resend) != [] ==> resend == old(resend) && unconfirmed == [] && cur.None?
      ensures Held() && Apart() && old(books).log <= books.log
    {
      hide Held, Polled, ExactPrefix, Began, AckedIs, CountsAs, ConfirmsExactly;
      ghost var conn, u, before := cur, unconfirmed, books.log;
      Nothing(conn, u);
      ReapLocked();
      ghost var u1, log1 := unconfirmed, books.log;
      var n := PollLocked(e.ok, e.more, e.now);
      PolledNone(u1, log1, n, cur);
      if !Dead(conn) {
        BeganNow(conn, u, before, n, e);
      }
    }

    /** The last write was of the record id, of size bytes. */
    static predicate LastWrite(wire: seq<Write>, id: nat, size: nat)
    {
      wire != [] && wire[|wire| - 1].id == id && wire[|wire| - 1].size == size
    }

    /** sendLocked for a new record. */
    method SendNew(size: nat) returns (ok: bool)
      requires Held() && Apart()
      modifies this
      ensures if ok then resend == [] && failures <= old(failures) + 1
              else cur.None? && unconfirmed == [] && failures == old(failures) + 2
      ensures ok ==> LastWrite(books.wire, old(nextId), size)
      ensures old(failures) <= failures && (failures == old(failures) ==> idx == old(idx))
      ensures Kept(old(books).accepted + (if ok then multiset{old(nextId)} else multiset{}), old(nextId) + 1, old(books).mark,
                   old(books).closed, old(peerClosed))
      ensures Held() && Apart() && old(books).log <= books.log
    {
      hide Held, Budget, AllAtLeast;
      var rec := Pending(nextId, size, 0, 0, 0, 0, 0);
      TakeId();
      ok := SendLocked(Some(rec));
    }

    /** The preferred address was left at least prefer ago. */
    static predicate FailBackDue(prefer: nat, leftAt: Option<nat>, clock: nat)
    {
      prefer > 0 && leftAt.Some? && clock - leftAt.value >= prefer
    }

    /** Send: an accepted record, all its bytes, is the last written and joins the books,
        and nothing waits before it; a refused
        one leaves no trace but two failures counted, and no connection; the callbacks
        are exactly those of the records settled meanwhile. Once fail-back is due and
        nothing is in flight, a send without failures is to the preferred address. */
    method Send(size: nat, e: Reading) returns (ok: bool, calls: seq<Callback>)
      requires Valid() && MayRead(e)
      modifies this
      ensures peerClosed == old(peerClosed) + Once(Dead(old(cur)))
      ensures Dead(old(cur)) || Began(old(cur), old(unconfirmed), old(books).log, books.log, e, grace)
      ensures Valid() && nextId == old(nextId) + 1 && books.closed == old(books).closed
      ensures books.accepted == old(books).accepted + (if ok then multiset{old(nextId)} else multiset{})
      ensures if ok then resend == [] && failures <= old(failures) + 1
              else cur.None? && unconfirmed == [] && failures == old(failures) + 2
      ensures FailBackDue(prefer, old(leftAt), old(clock)) && old(unconfirmed) == [] && !Dead(old(cur)) ==>
                failures > old(failures) || idx == 0
      ensures ok ==> LastWrite(books.wire, old(nextId), size)
      ensures old(books).log <= books.log && calls == Callbacks(books.log[|old(books).log|..])
    {
      hide Held, Apart, Callbacks, Began;
      ghost var conn, u, before := cur, unconfirmed, books.log;
      Refresh(e);
      ghost var after := books.log;
      MaybeFailBackLocked();
      ok := SendNew(size);
      PollAny();
      calls := Release();
      if !Dead(conn) {
        BeganLater(conn, u, before, after, books.log, e, grace);
      }
    }

    /** Poll: a dead connection is reaped, or the records in flight polled. failed reports a flush that found no address, which two failures are
        counted for. Otherwise nothing waits any more. If records were waiting, a failed
        flush strictly lowers what they can still spend, and each has spent at least one
        resend more. */
    method Poll(e: Reading) returns (failed: bool, calls: seq<Callback>)
      requires Valid() && MayRead(e)
      modifies this
      ensures peerClosed == old(peerClosed) + Once(Dead(old(cur)))
      ensures Dead(old(cur)) || Began(old(cur), old(unconfirmed), old(books).log, books.log, e, grace)
      ensures Valid() && books.accepted == old(books).accepted && nextId == old(nextId) && books.closed == old(books).closed
      ensures old(books).log <= books.log && calls == Callbacks(books.log[|old(books).log|..])
      ensures if failed then cur.None? && unconfirmed == [] && failures == old(failures) + 2
              else resend == [] && failures <= old(failures) + 1
      ensures failed && old(resend) != [] ==>
                && Weight(resend, max) < Weight(old(resend), max)
                && forall k :: AtLeast(old(resend), k) ==> AtLeast(resend, k + 1)
    {
      hide Held, Apart, Began, Callbacks, Weight, AtLeast;
      ghost var conn, u, before := cur, unconfirmed, books.log;
      Refresh(e);
      ghost var after := books.log;
      failed := false;
      if |resend| > 0 {
        failed := FlushOrCharge();
      }
      calls := Release();
      if !Dead(conn) {
        BeganLater(conn, u, before, after, books.log, e, grace);
      }
    }

    /** The resending half of Poll. */
    method FlushOrCharge() returns (failed: bool)
      requires Held() && Apart() && resend != []
      modifies this
      ensures Kept(old(books).accepted, old(nextId), old(books).mark, old(books).closed, old(peerClosed)) && Held() && Apart() && old(books).log <= books.log
      ensures if failed then cur.None? && unconfirmed == [] && failures == old(failures) + 2
              else resend == [] && failures <= old(failures) + 1
      ensures failed ==>
                && Weight(resend, max) < Weight(old(resend), max)
                && forall k :: AtLeast(old(resend), k) ==> AtLeast(resend, k + 1)
    {
      hide Balanced, Streamed, Placed, Leftover;
      ghost var waiting := resend;
      BalancedInFlight(books, unconfirmed, resend);
      assert Budget() == Weight(waiting, max) && forall k :: AtLeast(waiting, k) ==> AllAtLeast(k);
      var ok := SendLocked(None);
      failed := !ok;
      if failed {
        BalancedInFlight(books, unconfirmed, resend);
        ChargeSpends(waiting, unconfirmed, resend, max);
        ChargeResendsLocked();
      }
    }

    /** What the records in flight on s settle as when it is closed. */
    static function Closing(u: seq<Pending>, s: Stream): seq<Settled>
    {
      seq(|u|, i requires 0 <= i < |u| =>
        if u[i].end <= s.acked then Settled(u[i], true, s.id, s.trusted) else Settled(u[i], false, 0, false))
    }

    static function AllLost(w: seq<Pending>): seq<Settled>
    {
      seq(|w|, i requires 0 <= i < |w| => Settled(w[i], false, 0, false))
    }

    /** The first loop of Close: acknowledged records are confirmed, the others
        lost. */
    method CloseFlight(s: Stream)
      requires Level(multiset{}, unconfirmed, resend) && gauge == |unconfirmed|
      requires OnStream(books.wire, unconfirmed, s.id)
      requires (s.trusted || books.blind) && (s.trusted ==> s.id in acks && s.acked <= acks[s.id])
      requires books.closed
      modifies this`unconfirmed, this`gauge, this`confirmed, this`lost, this`cbs, this`books
      ensures Settles(old(books), books)
      ensures Level(multiset{}, [], resend) && unconfirmed == [] && gauge == 0
      ensures books.log == old(books).log + Closing(old(unconfirmed), s)
    {
      hide Balanced;
      var todo := unconfirmed;
      ghost var all := Closing(todo, s);
      var i := 0;
      while i < |todo|
        invariant Settles(old(books), books)
        invariant 0 <= i <= |todo| && gauge == |todo| - i
        invariant Level(multiset{}, todo[i..], resend)
        invariant books.log == old(books).log + all[..i]
      {
        var r := todo[i];
        assert todo[i..][1..] == todo[i + 1..];
        assert all[..i + 1] == all[..i] + [all[i]];
        TakeBalances(books, todo[i..], resend);
        BalancedInFlight(books, todo[i..], resend);
        gauge := gauge - 1;
        if r.end <= s.acked {
          ConfirmLocked(r, s, todo[i + 1..], resend);
        } else {
          LoseLocked(r, todo[i + 1..], resend);
        }
        i := i + 1;
      }
      assert todo[i..] == [] && all[..i] == all;
      unconfirmed := [];
    }

    /** The second loop of Close: every waiting record is lost. */
    method CloseWaiting()
      requires books.closed && Held() && unconfirmed == []
      modifies this`resend, this`lost, this`cbs, this`books
      ensures Settles(old(books), books)
      ensures Held() && Level(multiset{}, [], []) && resend == []
      ensures books.log == old(books).log + AllLost(old(resend))
    {
      hide Balanced;
      var todo := resend;
      ghost var all := AllLost(todo);
      var i := 0;
      while i < |todo|
        invariant Settles(old(books), books)
        invariant 0 <= i <= |todo|
        invariant Level(multiset{}, [], todo[i..])
        invariant books.log == old(books).log + all[..i]
      {
        assert todo[i..][1..] == todo[i + 1..];
        assert all[..i + 1] == all[..i] + [all[i]];
        TakeWaitingBalances(books, [], todo[i..]);
        BalancedInFlight(books, [], todo[i..]);
        LoseLocked(todo[i], [], todo[i + 1..]);
        i := i + 1;
      }
      assert todo[i..] == [] && all[..i] == all;
      resend := [];
    }

    /** The log a Close leaves: the records in flight on the connection, confirmed as far
        as a reading or the last one before it acknowledges them, and then the waiting
        ones, lost. */
    static ghost predicate ClosedOut(before: seq<Settled>, after: seq<Settled>, acks: map<nat, nat>,
                                     conn: Option<Stream>, u: seq<Pending>, w: seq<Pending>)
    {
      if conn.None? then after == before + AllLost(w)
      else exists s: Stream :: ReadFrom(s, conn.value, acks) && after == before + Closing(u, s) + AllLost(w)
    }

    /** Each record in flight when the client is closed is settled next, in order, and
        confirmed exactly if the peer acknowledged its last byte. */
    static predicate ClosedExactly(before: seq<Settled>, after: seq<Settled>, acks: map<nat, nat>,
                                   conn: Option<Stream>, u: seq<Pending>)
    {
      conn.Some? ==>
        && |before| + |u| <= |after|
        && forall i :: 0 <= i < |u| ==>
             var e := after[|before| + i];
             e.rec.id == u[i].id && (e.ok <==> AckedTo(acks, conn, u[i].end))
    }

    static lemma ClosesExactly(before: seq<Settled>, mid: seq<Settled>, after: seq<Settled>, acks: map<nat, nat>,
                               s: Stream, conn: Stream, u: seq<Pending>)
      requires conn.id == s.id && AckedIs(acks, s.id, s.acked) && mid == before + Closing(u, s) && mid <= after
      ensures ClosedExactly(before, after, acks, Some(conn), u)
    {
      forall i | 0 <= i < |u|
        ensures after[|before| + i] == Closing(u, s)[i]
      {
        assert mid[|before| + i] == Closing(u, s)[i];
      }
    }

    static predicate ReadFrom(s: Stream, conn: Stream, acks: map<nat, nat>)
    {
      s == conn || (s.id == conn.id && s.trusted && AckedIs(acks, s.id, s.acked))
    }

    /** Close: nothing is left in flight or waiting, so every accepted record has
        been settled, and its callback run, exactly once. */
    method Close() returns (calls: seq<Callback>)
      requires Valid()
      modifies this
      ensures Valid() && cur.None? && unconfirmed == [] && resend == []
      ensures books.closed && books.blind == old(books).blind
      ensures books.accepted == old(books).accepted && SettledIds(books.log) == books.accepted
      ensures ClosedOut(old(books).log, books.log, acks, old(cur), old(unconfirmed), old(resend))
      ensures canRead ==> ClosedExactly(old(books).log, books.log, acks, old(cur), old(unconfirmed))
      ensures old(books).log <= books.log && calls == Callbacks(books.log[|old(books).log|..])
    {
      hide Held, ClosedExactly, ClosedOut, Balanced;
      MarkClosed();
      CloseRecords();
      AllSettled(books);
      calls := Release();
    }

    /** Both loops of Close. */
    method CloseRecords()
      requires books.closed && Held()
      modifies this`cur, this`books, this`acks, this`unconfirmed, this`resend, this`gauge, this`confirmed, this`lost, this`cbs
      ensures Settles(old(books).(acks := acks), books)
      ensures cur.None? && unconfirmed == [] && resend == [] && old(books).log <= books.log
      ensures ClosedOut(old(books).log, books.log, acks, old(cur), old(unconfirmed), old(resend))
      ensures canRead ==> ClosedExactly(old(books).log, books.log, acks, old(cur), old(unconfirmed))
      ensures Held() && Level(multiset{}, [], [])
    {
      hide Held, Closing, AllLost, Balanced;
      if cur.Some? {
        ghost var s := CloseConnection();
        ghost var after := books.log;
        CloseWaiting();
        if canRead {
          ClosesExactly(old(books).log, after, books.log, acks, s, old(cur).value, old(unconfirmed));
        }
        assert books.log == old(books).log + Closing(old(unconfirmed), s) + AllLost(old(resend));
      } else {
        NothingFlies();
        CloseWaiting();
      }
    }

    lemma NothingFlies()
      requires Held() && cur.None?
      ensures unconfirmed == []
    {
      hide Balanced;
    }

    method MarkClosed()
      requires Held()
      modifies this`books
      ensures books == old(books).(closed := true)
      ensures Held() && books.closed
    {
      hide Balanced, Flight;
      ClosedBalances(books, unconfirmed, resend);
      books := books.(closed := true);
    }

    method CloseConnection() returns (ghost read: Stream)
      requires books.closed && cur.Some? && Held()
      modifies this`cur, this`books, this`acks, this`unconfirmed, this`gauge, this`confirmed, this`lost, this`cbs
      ensures Settles(old(books).(acks := acks), books)
      ensures (old(cur).Some? ==> ReadFrom(read, old(cur).value, acks)) && books.log == old(books).log + Closing(old(unconfirmed), read)
      ensures canRead ==> AckedIs(acks, read.id, read.acked)
      ensures Held() && cur.None? && unconfirmed == []
    {
      hide Balanced, Closing, Flight, Placed;
      var ok, more := SenseHeld();
      var q := ReadQueue(ok, more);
      var s := cur.value;
      if ok && q <= s.written {
        s := s.(acked := s.written - q, trusted := true);
      }
      FlightFacts(books.wire, unconfirmed, s.id, s.written, clock);
      CloseFlight(s);
      cur := None;
      read := s;
    }

    /** Polls while records wait, at most n: MaxResends of them, whatever the network
        does, bring the client to a point where nothing waits. */
    method PollWhileWaiting(n: nat) returns (polls: nat)
      requires Valid()
      modifies this
      ensures Valid() && polls <= n
      ensures polls < n || n >= max ==> resend == []
      ensures books.accepted == old(books).accepted
    {
      hide Balanced, Streamed, Placed, Weight;
      BalancedInFlight(books, unconfirmed, resend);
      polls := 0;
      while polls < n && resend != []
        invariant Valid() && polls <= n && books.accepted == old(books).accepted
        invariant AtLeast(resend, polls + 1)
      {
        var e := NextReading();
        var _, _ := Poll(e);
        polls := polls + 1;
      }
      BalancedInFlight(books, unconfirmed, resend);
      assert resend != [] ==> Waiting(resend[0], nextId, max, books.wire);
    }
  }

  // ---------------------------------------------- confirmed without a reading

  /** A new client that has written one record. */
  method FirstWrite(size: nat, grace: nat) returns (c: Client, r: Pending)
    ensures fresh(c) && c.grace == grace && !c.canRead && c.books.log == [] && c.acks == map[0 := 0] && c.resend == []
    ensures c.cur == Some(Stream(0, size, 0, true, false, false)) && c.unconfirmed == [r]
    ensures r.conn == 0 && r.end == size && r.at == c.clock
    ensures c.Held()
  {
    hide Client.Held, Balanced;
    c := NewClient(grace);
    c.TakeId();
    var dialed := c.EnsureConnLocked(true);
    var rec := Pending(0, size, 0, 0, 0, 0, 0);
    var written := c.WriteNew(rec, true);
    r := Stamped(rec, c.cur, c.clock);
  }

  method NewClient(grace: nat) returns (c: Client)
    ensures fresh(c) && c.addrs == 1 && c.grace == grace && !c.canRead && c.cur == None && c.unconfirmed == [] && c.resend == []
    ensures c.nextId == 0 && c.nextStream == 0 && c.books.accepted == multiset{} && c.books.log == [] && c.acks == map[]
    ensures c.Held()
  {
    c := new Client(1, 0, grace, 0, false);
  }

  lemma OneConfirmed(c: Client, r: Pending, n: nat, s: Option<Stream>, more: nat)
    requires c.Polled([r], [], n, s) && Client.ConfirmsExactly([r], n, false, more, c.clock, c.grace)
    requires r.end > more && r.at + c.grace <= c.clock
    ensures s.Some? && c.books.log == [Settled(r, true, s.value.id, s.value.trusted)] && c.unconfirmed == []
  {
    assert [r][0].end > more;
    assert n == 1;
  }

  /** One such poll, from a new client: a record is written, the peer acknowledges
      nothing, the reading fails, and once the grace is over the record is confirmed. */
  method BlindConfirmation(size: nat, grace: nat) returns (c: Client, r: Pending)
    requires size > 0
    ensures fresh(c) && c.books.log == [Settled(r, true, 0, false)]
    ensures r.conn == 0 && r.end == size && AckedIs(c.acks, 0, 0)
    ensures c.Held()
  {
    hide Client.Held, Client.Polled, Client.ConfirmsExactly;
    c, r := FirstWrite(size, grace);
    var n := c.PollLocked(false, 0, c.clock + grace);
    OneConfirmed(c, r, n, c.cur, 0);
  }

  // ------------------------------------------------------------------- sessions

  datatype Op = SendOp(size: nat) | PollOp | CloseOp | PeerOp(clean: bool)

  /** Any sequence of calls on a new client, with the peer closing the connection at any
      point between them, whatever the network does: done is called at most once for a
      record, and exactly once for each accepted one by the end of a Close; the counters
      add up. By the history of writes, no record was written more than MaxResends + 1
      times, always with the same bytes; where readings succeed, the peer had acknowledged
      every byte written on a confirmed record's connection up to and including its own;
      and until a Close a record is lost only with its resends spent. */
  method Session(c: Client, ops: seq<Op>) returns (calls: seq<Callback>)
    requires c.Valid() && c.books.log == []
    modifies c
    ensures c.Valid() && calls == Callbacks(c.books.log)
    ensures forall id :: CallsOf(calls, id) <= 1
    ensures c.written - c.resent == c.confirmed + c.lost + |c.unconfirmed| + |c.resend|
    ensures c.written == |c.books.wire|
    ensures c.gauge == |c.unconfirmed| && (c.unconfirmed == [] || c.resend == [])
    ensures ops != [] && ops[|ops| - 1] == CloseOp ==> forall id :: CallsOf(calls, id) == c.books.accepted[id]
    ensures WrittenWithin(c.books.wire, c.max)
    ensures c.canRead ==> ConfirmedAcked(c.books.log, c.books.wire, c.acks)
    ensures !old(c.books).closed && CloseOp !in ops ==> LostSpent(c.books.log, c.max)
  {
    hide WrittenWithin, ConfirmedAcked, LostSpent, Client.Held, Client.Apart, Callbacks, CallsOf;
    calls := [];
    NoCallbacks();
    var i := 0;
    while i < |ops|
      invariant 0 <= i <= |ops| && c.Valid() && calls == Callbacks(c.books.log)
      invariant i > 0 && ops[i - 1] == CloseOp ==> SettledIds(c.books.log) == c.books.accepted
      invariant c.books.closed ==> old(c.books).closed || CloseOp in ops
    {
      ghost var before := c.books.log;
      var more: seq<Callback> := [];
      var e := c.NextReading();
      match ops[i] {
        case SendOp(size) =>
          var ok;
          ok, more := c.Send(size, e);
        case PollOp =>
          var failed;
          failed, more := c.Poll(e);
        case PeerOp(clean) =>
          c.PeerCloses(clean);
        case CloseOp =>
          more := c.Close();
      }
      CallbacksConcat(before, c.books.log[|before|..]);
      assert c.books.log == before + c.books.log[|before|..];
      calls := calls + more;
      i := i + 1;
    }
    SessionEnds(c, calls);
  }

  /** What a valid client's state says of the session that led to it. */
  lemma SessionEnds(c: Client, calls: seq<Callback>)
    requires c.Valid() && calls == Callbacks(c.books.log)
    ensures forall id :: CallsOf(calls, id) <= 1 && CallsOf(calls, id) == SettledIds(c.books.log)[id]
    ensures c.written - c.resent == c.confirmed + c.lost + |c.unconfirmed| + |c.resend|
    ensures c.written == |c.books.wire| && c.gauge == |c.unconfirmed| && (c.unconfirmed == [] || c.resend == [])
    ensures WrittenWithin(c.books.wire, c.max)
    ensures c.canRead ==> ConfirmedAcked(c.books.log, c.books.wire, c.acks)
    ensures !c.books.closed ==> LostSpent(c.books.log, c.max)
  {
    hide Balanced, WrittenWithin, ConfirmedAcked, LostSpent, Client.Streamed, Client.Placed, Callbacks, CallsOf;
    forall id
      ensures CallsOf(calls, id) <= 1 && CallsOf(calls, id) == SettledIds(c.books.log)[id]
    {
      DoneExactlyOnce(c.books, c.unconfirmed, c.resend, id);
      CallsSettled(c.books.log, id);
    }
    ExactlyOnePlace(c.books, c.unconfirmed, c.resend);
    RecordsSound(c.books, c.unconfirmed, c.resend);
  }

  /** Every record was written at most max + 1 times, always with the same bytes. */
  ghost predicate WrittenWithin(wire: seq<Write>, max: nat)
  {
    forall id :: WritesOf(wire, id) <= max + 1 && OneSize(wire, id)
  }

  /** Every write of a record is of as many bytes. */
  predicate OneSize(wire: seq<Write>, id: nat)
  {
    forall i, j :: 0 <= i < j < |wire| && wire[i].id == id && wire[j].id == id ==> wire[i].size == wire[j].size
  }

  /** k is a write of the record id, on connection conn, and the peer acknowledged all that
      was written there up to and including it. */
  predicate AckedThrough(wire: seq<Write>, acks: map<nat, nat>, id: nat, conn: nat, k: nat)
  {
    k < |wire| && wire[k].id == id && wire[k].conn == conn && conn in acks && BytesOn(wire[..k + 1], conn) <= acks[conn]
  }

  ghost predicate ConfirmedAcked(log: seq<Settled>, wire: seq<Write>, acks: map<nat, nat>)
  {
    forall i :: 0 <= i < |log| && log[i].ok ==> exists k :: AckedThrough(wire, acks, log[i].rec.id, log[i].stream, k)
  }

  /** Whatever was lost had spent every resend. */
  ghost predicate LostSpent(log: seq<Settled>, max: nat)
  {
    forall i :: 0 <= i < |log| && !log[i].ok ==> log[i].rec.resends == max + 1
  }

  lemma {:induction false} FindId(s: seq<Pending>, id: nat) returns (i: nat)
    requires id in Ids(s)
    ensures i < |s| && s[i].id == id
  {
    if s[0].id == id {
      i := 0;
    } else {
      i := FindId(s[1..], id);
      i := i + 1;
    }
  }

  lemma {:induction false} FindSettled(log: seq<Settled>, id: nat) returns (i: nat)
    requires id in SettledIds(log)
    ensures i < |log| && log[i].rec.id == id
  {
    if log[|log| - 1].rec.id == id {
      i := |log| - 1;
    } else {
      i := FindSettled(log[..|log| - 1], id);
    }
  }

  /** What the balance says of any one record. */
  lemma OneRecord(k: Books, u: seq<Pending>, w: seq<Pending>, id: nat)
    requires Balanced(k, multiset{}, u, w)
    ensures WritesOf(k.wire, id) <= k.max + 1
    ensures OneSize(k.wire, id)
  {
    hide Callbacks, CountOk, SettledIds, Ids, Recorded, WritesOf;
    if id !in k.accepted {
      NeverWritten(k.wire, id);
    } else {
      assert id in multiset{} + Ids(u) + Ids(w) + SettledIds(k.log);
      if id in Ids(u) {
        var i := FindId(u, id);
        assert InFlight(u[i], k.nextId, k.max, k.wire);
      } else if id in Ids(w) {
        var i := FindId(w, id);
        assert Waiting(w[i], k.nextId, k.max, k.wire);
      } else {
        var i := FindSettled(k.log, id);
        assert SettledOk(k.log[i], k);
      }
    }
  }

  lemma RecordsSound(k: Books, u: seq<Pending>, w: seq<Pending>)
    requires Balanced(k, multiset{}, u, w)
    ensures WrittenWithin(k.wire, k.max) && (!k.blind ==> ConfirmedAcked(k.log, k.wire, k.acks))
    ensures !k.closed ==> LostSpent(k.log, k.max)
  {
    forall id
      ensures WritesOf(k.wire, id) <= k.max + 1 && OneSize(k.wire, id)
    {
      OneRecord(k, u, w, id);
    }
    LogSound(k);
  }

  lemma LogSound(k: Books)
    requires LogOk(k)
    ensures !k.blind ==> ConfirmedAcked(k.log, k.wire, k.acks)
    ensures !k.closed ==> LostSpent(k.log, k.max)
  {
    hide BytesOn, WritesOf;
    forall i | 0 <= i < |k.log| && k.log[i].ok && !k.blind
      ensures exists n :: AckedThrough(k.wire, k.acks, k.log[i].rec.id, k.log[i].stream, n)
    {
      assert SettledOk(k.log[i], k);
      var n :| WrittenAs(k.wire, k.log[i].rec, n);
      assert AckedThrough(k.wire, k.acks, k.log[i].rec.id, k.log[i].stream, n);
    }
    forall i | 0 <= i < |k.log| && !k.log[i].ok && !k.closed
      ensures k.log[i].rec.resends == k.max + 1
    {
      assert SettledOk(k.log[i], k);
    }
  }

  lemma NoCallbacks()
    ensures Callbacks([]) == []
  {
  }

  lemma {:induction false} CallbacksConcat(a: seq<Settled>, b: seq<Settled>)
    ensures Callbacks(a + b) == Callbacks(a) + Callbacks(b)
    decreases b
  {
    if b == [] {
      assert a + b == a;
    } else {
      var b' := b[..|b| - 1];
      CallbacksConcat(a, b');
      assert (a + b)[..|a + b| - 1] == a + b';
    }
  }

  lemma AllSettled(k: Books)
    requires Balanced(k, multiset{}, [], [])
    ensures SettledIds(k.log) == k.accepted
  {
  }

  /** A failed flush: now is what waits after it, no heavier than before and with
      no fewer resends spent; the charge then takes one more from each. */
  lemma ChargeSpends(before: seq<Pending>, flying: seq<Pending>, now: seq<Pending>, max: nat)
    requires before != [] && flying == []
    requires forall i :: 0 <= i < |before| ==> before[i].resends <= max
    requires forall i :: 0 <= i < |now| ==> now[i].resends <= max
    requires Weight(flying, max) + Weight(now, max) <= Weight(before, max)
    requires forall k :: AtLeast(before, k) ==> AtLeast(now, k)
    ensures Weight(Leftover(now, false, 0, max), max) < Weight(before, max)
    ensures forall k :: AtLeast(before, k) ==> AtLeast(Leftover(now, false, 0, max), k + 1)
  {
    LeftoverWeight(now, false, 0, max);
    WeightPositive(before, max);
    forall k | AtLeast(before, k) ensures AtLeast(Leftover(now, false, 0, max), k + 1) {
      LeftoverAtLeast(now, false, 0, max, k);
    }
  }

  /** Retiring a connection never gives a record budget back. */
  lemma LeftoverBudget(u: seq<Pending>, w: seq<Pending>, w': seq<Pending>, max: nat)
    requires forall i :: 0 <= i < |u| ==> u[i].resends <= max
    requires exists known, acked :: w' == w + Leftover(u, known, acked, max)
    ensures Weight([], max) + Weight(w', max) <= Weight(u, max) + Weight(w, max)
    ensures forall k :: AtLeast([], k)
    ensures forall k :: AtLeast(u, k) && AtLeast(w, k) ==> AtLeast(w', k)
  {
    var known, acked :| w' == w + Leftover(u, known, acked, max);
    LeftoverWeight(u, known, acked, max);
    WeightConcat(w, Leftover(u, known, acked, max), max);
    forall k | AtLeast(u, k) && AtLeast(w, k) ensures AtLeast(w', k) {
      LeftoverAtLeast(u, known, acked, max, k);
    }
  }

  lemma TalliedNow(wire: seq<Write>, r: Pending, r': Pending, x: Write)
    requires Tallied(wire, r) && r'.id == r.id == x.id && r'.size == r.size == x.size && r'.writes == r.writes + 1
    ensures Tallied(wire + [x], r')
  {
    AppendWrite(wire, x);
  }

  /** The head of the waiting records is written, and flies. */
  lemma ResendBalances(k: Books, u: seq<Pending>, w: seq<Pending>, r: Pending, x: Write)
    requires Balanced(k, multiset{}, u, w) && w != [] && x.id == r.id == w[0].id && x.size == r.size == w[0].size
    requires r.resends == w[0].resends && r.writes == w[0].writes + 1
    ensures Balanced(k.(wire := k.wire + [x]), multiset{}, u + [r], w[1..])
  {
    BalancedInFlight(k, u, w);
    assert Waiting(w[0], k.nextId, k.max, k.wire);
    hide Balanced, Tallied;
    TakeWaitingBalances(k, u, w);
    WriteBalances(k, x, u, w[1..]);
    TalliedNow(k.wire, w[0], r, x);
    FlyBalances(k.(wire := k.wire + [x]), r, u, w[1..]);
  }

  /** What the records can spend stays as it was. */
  lemma ResendBudget(u: seq<Pending>, w: seq<Pending>, r: Pending, max: nat)
    requires w != [] && r.resends == w[0].resends
    ensures Weight(u + [r], max) + Weight(w[1..], max) == Weight(u, max) + Weight(w, max)
    ensures forall k :: AtLeast(u, k) && AtLeast(w, k) ==> AtLeast(u + [r], k) && AtLeast(w[1..], k)
  {
    WeightAppend(u, r, max);
  }

  lemma NewTallied(k: Books, u: seq<Pending>, w: seq<Pending>, r: Pending)
    requires Balanced(k, multiset{}, u, w) && r.id !in k.accepted && r.writes == 0
    ensures Tallied(k.wire, r)
  {
    NeverWritten(k.wire, r.id);
  }

  lemma LeftoverStep(s: seq<Pending>, i: nat, known: bool, acked: nat, max: nat)
    requires i < |s|
    ensures Leftover(s[..i + 1], known, acked, max) ==
            Leftover(s[..i], known, acked, max) + (if known && s[i].end <= acked then [] else Requeued(s[i], max))
  {
    assert s[..i + 1][..i] == s[..i];
  }

  lemma DueCalls(k: Books, u: seq<Pending>, w: seq<Pending>)
    requires Balanced(k, multiset{}, u, w)
    ensures k.mark <= |k.log| && k.cbs == Callbacks(k.log[k.mark..])
  {
  }

  lemma BalancedInFlight(k: Books, u: seq<Pending>, w: seq<Pending>)
    requires Balanced(k, multiset{}, u, w)
    ensures AllInFlight(u, k.nextId, k.max, k.wire) && AllWaiting(w, k.nextId, k.max, k.wire)
  {
  }
}
