/**
  From the facade to the plane: a submission is published unless the guard knows
  its pair, the queue's drain (uptunnel/queue.go, Run) hands records to the
  client, and only the client's confirmation marks the pair (facade/facade.go).
*/
module Relay {
  import opened Bytes
  import opened Uptunnel
  import opened UptunnelClient
  import PublishQueue
  import Sums

  /** One queued record: the (ContentID, TopicID) pair it carries and its size. */
  datatype Item = Item(pair: nat, size: nat)

  datatype Answer = LoopDropped | Published | Shed

  datatype Status = OK | BadGateway | Unavailable

  /** The records of the topics that the guard does not know, in order. */
  function Unknown(topics: seq<nat>, known: set<nat>, size: nat): seq<Item>
  {
    if topics == [] then []
    else
      var t := topics[|topics| - 1];
      Unknown(topics[..|topics| - 1], known, size) + (if t in known then [] else [Item(t, size)])
  }

  /** A record for each topic the guard does not know, none for one it does, in the order of
      the topics. */
  lemma {:induction false} UnknownInOrder(a: seq<nat>, b: seq<nat>, t: nat, known: set<nat>, size: nat)
    ensures Unknown(a + b, known, size) == Unknown(a, known, size) + Unknown(b, known, size)
    ensures Unknown([t], known, size) == if t in known then [] else [Item(t, size)]
    decreases |b|
  {
    assert [t][..0] == [];
    if b == [] {
      assert a + b == a;
    } else {
      UnknownInOrder(a, b[..|b| - 1], t, known, size);
      assert (a + b)[..|a + b| - 1] == a + b[..|b| - 1];
    }
  }

  function CountCalls(cs: seq<Callback>, ok: bool): nat
  {
    if cs == [] then 0 else (if cs[0].ok == ok then 1 else 0) + CountCalls(cs[1..], ok)
  }

  /** The pairs of the confirmed records of a log. */
  ghost function Confirmed(log: seq<Settled>, pairs: map<nat, nat>): set<nat>
  {
    set i | 0 <= i < |log| && log[i].ok && log[i].rec.id in pairs :: pairs[log[i].rec.id]
  }

  /** The pairs of the successful calls. */
  ghost function Marked(cs: seq<Callback>, pairs: map<nat, nat>): set<nat>
  {
    set i | 0 <= i < |cs| && cs[i].ok && cs[i].id in pairs :: pairs[cs[i].id]
  }

  lemma {:induction false} CallbacksAt(log: seq<Settled>)
    ensures |Callbacks(log)| == |log|
    ensures forall i :: 0 <= i < |log| ==> Callbacks(log)[i] == Callback(log[i].rec.id, log[i].ok)
  {
    if log == [] {
    } else {
      CallbacksAt(log[..|log| - 1]);
    }
  }

  lemma {:induction false} CountConcat(a: seq<Callback>, b: seq<Callback>, ok: bool)
    ensures CountCalls(a + b, ok) == CountCalls(a, ok) + CountCalls(b, ok)
  {
    if a == [] {
      assert a + b == b;
    } else {
      CountConcat(a[1..], b, ok);
      assert (a + b)[1..] == a[1..] + b;
    }
  }

  lemma {:induction false} CountSettled(log: seq<Settled>, ok: bool)
    ensures CountCalls(Callbacks(log), ok) == CountOk(log, ok)
  {
    if log == [] {
    } else {
      CountSettled(log[..|log| - 1], ok);
      var cs, c := Callbacks(log[..|log| - 1]), Callback(log[|log| - 1].rec.id, log[|log| - 1].ok);
      CountConcat(cs, [c], ok);
    }
  }

  /** The calls of a log's new entries count and mark what the log gained. */
  lemma NewCalls(log: seq<Settled>, log': seq<Settled>, pairs: map<nat, nat>, ok: bool)
    requires log <= log'
    ensures CountOk(log', ok) == CountOk(log, ok) + CountCalls(Callbacks(log'[|log|..]), ok)
    ensures Confirmed(log', pairs) == Confirmed(log, pairs) + Marked(Callbacks(log'[|log|..]), pairs)
  {
    var more := log'[|log|..];
    assert log' == log + more;
    CallbacksConcat(log, more);
    CountSettled(log, ok);
    CountSettled(log', ok);
    CountConcat(Callbacks(log), Callbacks(more), ok);
    CallbacksAt(more);
    forall x | x in Confirmed(log', pairs) ensures x in Confirmed(log, pairs) + Marked(Callbacks(more), pairs) {
      var i :| 0 <= i < |log'| && log'[i].ok && log'[i].rec.id in pairs && pairs[log'[i].rec.id] == x;
      if i >= |log| {
        assert Callbacks(more)[i - |log|] == Callback(log'[i].rec.id, true);
      }
    }
    forall x | x in Marked(Callbacks(more), pairs) ensures x in Confirmed(log', pairs) {
      var i :| 0 <= i < |more| && Callbacks(more)[i].ok && Callbacks(more)[i].id in pairs && pairs[Callbacks(more)[i].id] == x;
      assert log'[|log| + i] == more[i];
    }
    forall x | x in Confirmed(log, pairs) ensures x in Confirmed(log', pairs) {
      var i :| 0 <= i < |log| && log[i].ok && log[i].rec.id in pairs && pairs[log[i].rec.id] == x;
      assert log'[i] == log[i];
    }
  }

  // ------------------------------------------------------------------- the outlet

  /** What Run hands records to: the client, the counters its callbacks keep, and the
      guard's Submitted marks. */
  class Outlet {
    const client: Client

    var sent: nat
    var failed: nat
    var pairs: map<nat, nat>   // what each record's sent callback captured
    var submitted: set<nat>    // the guard's Submitted marks

    ghost var refused: nat     // records Send refused
    ghost var handed: seq<nat> // the pairs of the records handed over, in order

    constructor (client: Client)
      requires client.Valid() && client.books.log == [] && client.books.accepted == multiset{} && client.nextId == 0
      ensures Valid() && this.client == client && submitted == {} && Handled() == 0 && handed == [] && fresh(this)
    {
      this.client := client;
      pairs, submitted := map[], {};
      sent, failed, refused, handed := 0, 0, 0, [];
    }

    /** What holds whenever Run is between two calls of the client. Each record handed
        over is bound to its own pair. */
    ghost predicate Valid()
      reads this, client
    {
      && client.Valid()
      && sent == CountOk(client.books.log, true)
      && failed == refused + CountOk(client.books.log, false)
      && |handed| == client.nextId
      && (forall id: nat :: id in pairs <==> id < |handed|)
      && (forall id :: id in pairs ==> pairs[id] == handed[id])
      && submitted == Confirmed(client.books.log, pairs)
    }

    /** How many records Run has handed to the client. */
    ghost function Handled(): nat
      reads this, client
    {
      refused + |client.books.accepted|
    }

    /** The callbacks of one client call, as the drain's done closures run. */
    method RunCalls(calls: seq<Callback>)
      modifies this`sent, this`failed, this`submitted
      ensures sent == old(sent) + CountCalls(calls, true)
      ensures failed == old(failed) + CountCalls(calls, false)
      ensures submitted == old(submitted) + Marked(calls, pairs)
    {
      var i := 0;
      while i < |calls|
        invariant 0 <= i <= |calls|
        invariant sent + CountCalls(calls[i..], true) == old(sent) + CountCalls(calls, true)
        invariant failed + CountCalls(calls[i..], false) == old(failed) + CountCalls(calls, false)
        invariant submitted == old(submitted) + Marked(calls[..i], pairs)
      {
        var c := calls[i];
        assert calls[i..][1..] == calls[i + 1..];
        MarkedStep(calls, i, pairs);
        if !c.ok {
          failed := failed + 1;
        } else {
          sent := sent + 1;
          if c.id in pairs {
            submitted := submitted + {pairs[c.id]};
          }
        }
        i := i + 1;
      }
      assert calls[..i] == calls;
    }

    /** A tick of Run: the client is polled. */
    method Tick()
      requires Valid()
      modifies this, client
      ensures Valid() && Handled() == old(Handled())
      ensures pairs == old(pairs) && handed == old(handed)
    {
      hide Client.Held, Client.Apart, Callbacks, CountOk, Confirmed, Marked, CountCalls;
      ghost var before := client.books.log;
      var e := client.NextReading();
      var _, calls := client.Poll(e);
      NewCalls(before, client.books.log, pairs, true);
      NewCalls(before, client.books.log, pairs, false);
      RunCalls(calls);
    }

    /** A record taken by Run: it is sent, or counted failed at once. */
    method Deliver(it: Item)
      requires Valid()
      modifies this, client
      ensures Valid() && Handled() == old(Handled()) + 1
      ensures pairs == old(pairs)[old(client.nextId) := it.pair] && handed == old(handed) + [it.pair]
    {
      hide Client.Held, Client.Apart, Callbacks, CountOk, Confirmed, Marked, CountCalls;
      ghost var before := client.books.log;
      var id := client.nextId;
      ConfirmedFresh(client, pairs, it.pair);
      pairs := pairs[id := it.pair];
      handed := handed + [it.pair];
      var e := client.NextReading();
      var ok, calls := client.Send(it.size, e);
      NewCalls(before, client.books.log, pairs, true);
      NewCalls(before, client.books.log, pairs, false);
      RunCalls(calls);
      if !ok {
        failed := failed + 1;
        refused := refused + 1;
      }
    }
  }

  /** A record handed to the client is sent, failed, in flight or waiting, and exactly
      one of these. */
  lemma HandledOnce(out: Outlet)
    requires out.Valid()
    ensures out.Handled() == out.sent + out.failed + |out.client.unconfirmed| + |out.client.resend|
  {
    ExactlyOnePlace(out.client.books, out.client.unconfirmed, out.client.resend);
  }

  /** Where send-queue readings succeed, a pair marked Submitted has a record that was
      written on a connection on which the peer acknowledged every byte up to and
      including it. */
  lemma MarkedMeansAcknowledged(out: Outlet, pair: nat)
    requires out.Valid() && out.client.canRead && pair in out.submitted
    ensures exists id, conn, k :: id in out.pairs && out.pairs[id] == pair &&
                                  AckedThrough(out.client.books.wire, out.client.acks, id, conn, k)
  {
    var books := out.client.books;
    var i :| 0 <= i < |books.log| && books.log[i].ok && books.log[i].rec.id in out.pairs && out.pairs[books.log[i].rec.id] == pair;
    LogSound(books);
    var k :| AckedThrough(books.wire, books.acks, books.log[i].rec.id, books.log[i].stream, k);
  }

  // ------------------------------------------------------- one submission at a time

  /** The facade and the queue with no submission in progress but this one. */
  class Bridge {
    const out: Outlet
    const capacity: nat

    var ch: seq<Item>
    var enqueued: nat
    var shed: nat
    var delivered: set<nat>    // the guard's Delivered marks, made by the feed

    constructor (out: Outlet, capacity: nat)
      requires out.Valid() && out.Handled() == 0
      ensures Valid() && this.out == out && fresh(this)
    {
      this.out, this.capacity := out, capacity;
      ch, delivered, enqueued, shed := [], {}, 0, 0;
    }

    ghost predicate Valid()
      reads this, out, out.client
    {
      out.Valid() && enqueued == |ch| + out.Handled()
    }

    /** One topic of a submission: dropped only if the guard knows the pair, and
        the guard knows it only if the plane delivered it or a record of it was
        confirmed. So what was shed, refused or lost stays open to a retry. */
    method Submit(pair: nat, size: nat) returns (r: Answer)
      requires Valid()
      modifies this`ch, this`enqueued, this`shed
      ensures Valid()
      ensures r == LoopDropped <==> pair in delivered || pair in Confirmed(out.client.books.log, out.pairs)
      ensures r == LoopDropped <==> pair in out.submitted + delivered
      ensures r == Shed <==> r != LoopDropped && |old(ch)| >= capacity
      ensures r == Published ==> ch == old(ch) + [Item(pair, size)] && enqueued == old(enqueued) + 1
      ensures r != Published ==> ch == old(ch) && enqueued == old(enqueued)
    {
      if pair in out.submitted || pair in delivered {
        return LoopDropped;
      }
      if |ch| >= capacity {
        shed := shed + 1;
        return Shed;
      }
      ch := ch + [Item(pair, size)];
      enqueued := enqueued + 1;
      return Published;
    }

    /** The per-topic loop of a submission. engine and trusted are, by pair, whether
        the local engine answers and whether the source is trusted for the topic. Up
        to where it stops, exactly the pairs the guard does not know are queued, in
        order; it stops only at an engine that fails or a queue that is full, and
        then says so. */
    method SubmitTopics(topics: seq<nat>, size: nat, engine: nat -> bool, trusted: nat -> bool)
      returns (status: Status, reached: nat)
      requires Valid()
      modifies this`ch, this`enqueued, this`shed
      ensures Valid() && reached <= |topics|
      ensures ch == old(ch) + Unknown(topics[..reached], out.submitted + delivered, size)
      ensures status == OK <==> reached == |topics|
      ensures status == BadGateway ==> !trusted(topics[reached]) && !engine(topics[reached])
      ensures status == Unavailable ==> topics[reached] !in out.submitted + delivered && |ch| >= capacity
    {
      hide Valid;
      reached := 0;
      while reached < |topics|
        invariant Valid() && reached <= |topics|
        invariant ch == old(ch) + Unknown(topics[..reached], out.submitted + delivered, size)
      {
        var t := topics[reached];
        assert topics[..reached + 1][..reached] == topics[..reached];
        if !trusted(t) && !engine(t) {
          return BadGateway, reached;
        }
        var r := Submit(t, size);
        if r == Shed {
          return Unavailable, reached;
        }
        reached := reached + 1;
      }
      status := OK;
    }
  }

  // ----------------------------------------------------- any number of submissions

  /** The facade's publishers and Run interleaved step by step, as in PublishQueue, over
      the client. hand is the record Run has received and not yet handed over. */
  class LiveBridge {
    const out: Outlet
    const opt: PublishQueue.Options

    var q: PublishQueue.Queue
    var offers: seq<nat>       // the pair each publisher's record is for
    var queued: seq<nat>       // the pairs of the records on the channel
    var hand: Option<Item>
    var delivered: set<nat>

    ghost var offered: set<nat>  // every pair the guard let through
    ghost var put: seq<nat>      // the pairs of the records put on the channel, in order

    constructor (out: Outlet, opt: PublishQueue.Options, publishers: nat)
      requires out.Valid() && out.Handled() == 0 && out.handed == []
      ensures Valid() && this.out == out && fresh(this) && offered == {} && put == []
    {
      hide PublishQueue.LedgerInv, PublishQueue.WakeInv, Outlet.Valid;
      this.out, this.opt := out, opt;
      q := PublishQueue.Start(publishers);
      offers := seq(publishers, _ => 0);
      queued, hand, delivered, offered, put := [], None, {}, {}, [];
      PublishQueue.StartInv(publishers, opt);
    }

    ghost predicate Valid()
      reads this, out, out.client
    {
      && out.Valid() && PublishQueue.LedgerInv(q, opt)
      && |offers| == |q.pubs| && |queued| == |q.ch|
      && (!q.drain.Ready? ==> hand.Some?)
      && put == out.handed + (if hand.Some? then [hand.value.pair] else []) + queued
      && (forall p :: 0 <= p < |offers| && !q.pubs[p].Idle? ==> offers[p] in offered)
      && (forall i :: 0 <= i < |put| ==> put[i] in offered)
      && q.taken == out.Handled() + (if hand.Some? && q.drain.Ready? then 1 else 0)
    }

    /** The guard is read and, if it does not know the pair, publisher p begins. */
    method Offer(p: nat, pair: nat, size: nat) returns (dropped: bool)
      requires Valid() && PublishQueue.Enabled(q, opt, PublishQueue.Publish(p, size))
      modifies this`q, this`offers, this`offered
      ensures Valid()
      ensures dropped <==> pair in delivered || pair in Confirmed(out.client.books.log, out.pairs)
      ensures if dropped then q == old(q) && offers == old(offers)
              else q == PublishQueue.Apply(old(q), opt, PublishQueue.Publish(p, size)) && offers == old(offers)[p := pair]
      ensures offered == old(offered) + (if dropped then {} else {pair})
    {
      hide PublishQueue.LedgerInv, Confirmed, Client.Held, Client.Apart;
      dropped := pair in out.submitted || pair in delivered;
      if !dropped {
        var a := PublishQueue.Publish(p, size);
        PublishQueue.StepLedger(q, opt, a);
        q := PublishQueue.Apply(q, opt, a);
        offers := offers[p := pair];
        offered := offered + {pair};
      }
    }

    /** Any further step of a publisher. A record put on the channel is for the pair its
        publisher was offered. */
    method Publishing(a: PublishQueue.Action)
      requires Valid() && PublishQueue.Enabled(q, opt, a) && !PublishQueue.OfDrain(a) && !a.Publish?
      modifies this`q, this`queued, this`put
      ensures Valid() && q == PublishQueue.Apply(old(q), opt, a)
      ensures queued == old(queued) + (if |q.ch| > |old(q).ch| then [offers[a.p]] else [])
    {
      hide PublishQueue.LedgerInv, Outlet.Valid;
      PublishQueue.StepLedger(q, opt, a);
      if a.Put? && |q.ch| < opt.capacity {
        queued := queued + [offers[a.p]];
        put := put + [offers[a.p]];
      }
      q := PublishQueue.Apply(q, opt, a);
    }

    /** Run receives the oldest record. */
    method Receive()
      requires Valid() && hand.None? && PublishQueue.Enabled(q, opt, PublishQueue.Receive)
      modifies this`q, this`queued, this`hand
      ensures Valid() && q == PublishQueue.Apply(old(q), opt, PublishQueue.Receive)
      ensures hand == Some(Item(old(queued)[0], old(q).ch[0])) && queued == old(queued)[1..]
    {
      hide PublishQueue.LedgerInv, Outlet.Valid;
      PublishQueue.StepLedger(q, opt, PublishQueue.Receive);
      hand, queued := Some(Item(queued[0], q.ch[0])), queued[1..];
      q := PublishQueue.Apply(q, opt, PublishQueue.Receive);
    }

    /** taken: the bytes are released, then the waiting publishers woken. */
    method Taken(a: PublishQueue.Action)
      requires Valid() && PublishQueue.Enabled(q, opt, a) && (a.Release? || a.Announce?)
      modifies this`q
      ensures Valid() && q == PublishQueue.Apply(old(q), opt, a)
    {
      hide PublishQueue.LedgerInv, Outlet.Valid;
      PublishQueue.StepLedger(q, opt, a);
      q := PublishQueue.Apply(q, opt, a);
    }

    /** Run hands the record over. */
    method Deliver()
      requires Valid() && hand.Some? && q.drain.Ready?
      modifies this`hand, out, out.client
      ensures Valid() && hand.None?
      ensures out.pairs == old(out.pairs)[old(out.client.nextId) := old(hand).value.pair]
      ensures out.handed == old(out.handed) + [old(hand).value.pair]
    {
      hide PublishQueue.LedgerInv, Outlet.Valid;
      out.Deliver(hand.value);
      hand := None;
    }

    method Tick()
      requires Valid() && hand.None?
      modifies out, out.client
      ensures Valid() && out.pairs == old(out.pairs)
    {
      hide PublishQueue.LedgerInv, Outlet.Valid;
      out.Tick();
    }

    /** The feed marks a pair the plane delivered. */
    method MarkDelivered(pair: nat)
      requires Valid()
      modifies this`delivered
      ensures Valid() && delivered == old(delivered) + {pair}
    {
      hide PublishQueue.LedgerInv, Outlet.Valid;
      delivered := delivered + {pair};
    }
  }

  lemma MarkedStep(cs: seq<Callback>, i: nat, pairs: map<nat, nat>)
    requires i < |cs|
    ensures Marked(cs[..i + 1], pairs) ==
            Marked(cs[..i], pairs) + (if cs[i].ok && cs[i].id in pairs then {pairs[cs[i].id]} else {})
  {
    var a, b := cs[..i], cs[..i + 1];
    assert forall j :: 0 <= j < i ==> a[j] == b[j] == cs[j];
    assert b[i] == cs[i];
    forall x | x in Marked(b, pairs)
      ensures x in Marked(a, pairs) + (if cs[i].ok && cs[i].id in pairs then {pairs[cs[i].id]} else {})
    {
      var j :| 0 <= j < |b| && b[j].ok && b[j].id in pairs && pairs[b[j].id] == x;
      if j < i {
        assert a[j] == b[j];
      }
    }
    forall x | x in Marked(a, pairs) ensures x in Marked(b, pairs) {
      var j :| 0 <= j < |a| && a[j].ok && a[j].id in pairs && pairs[a[j].id] == x;
      assert b[j] == a[j];
    }
  }

  /** A pair bound to an id not handed out yet confirms nothing new. */
  lemma ConfirmedNew(k: Books, u: seq<Pending>, w: seq<Pending>, pairs: map<nat, nat>, id: nat, pair: nat)
    requires Balanced(k, multiset{}, u, w) && id == k.nextId
    ensures Confirmed(k.log, pairs[id := pair]) == Confirmed(k.log, pairs)
  {
    forall i | 0 <= i < |k.log| ensures k.log[i].rec.id < id {
      SettledMember(k.log, i);
      assert k.log[i].rec.id in k.accepted;
    }
  }

  lemma ConfirmedFresh(c: Client, pairs: map<nat, nat>, pair: nat)
    requires c.Valid()
    ensures Confirmed(c.books.log, pairs[c.nextId := pair]) == Confirmed(c.books.log, pairs)
  {
    ConfirmedNew(c.books, c.unconfirmed, c.resend, pairs, c.nextId, pair);
  }

  // -------------------------------------------------------------------- end to end

  /** With one submission at a time, between records each enqueued one is still queued,
      in flight, waiting, sent or failed, and exactly one of these. */
  lemma EndToEnd(b: Bridge)
    requires b.Valid()
    ensures b.enqueued == |b.ch| + b.out.sent + b.out.failed + |b.out.client.unconfirmed| + |b.out.client.resend|
  {
    HandledOnce(b.out);
  }

  /** With any number of publishers interleaved, at every step: what is counted as
      enqueued, and what its publisher is about to count, is queued, in hand, sent,
      failed, in flight or waiting. */
  lemma LiveEndToEnd(b: LiveBridge)
    requires b.Valid()
    ensures b.q.enqueued + Sums.Sum(PublishQueue.Uncounted(b.q.pubs)) ==
            |b.q.ch| + (if b.hand.Some? then 1 else 0) +
            b.out.sent + b.out.failed + |b.out.client.unconfirmed| + |b.out.client.resend|
  {
    hide Outlet.Valid;
    HandledOnce(b.out);
  }

  /** So the five terms balance whenever Run is between records and no publisher is
      between its send and its count. */
  lemma LiveQuiescent(b: LiveBridge)
    requires b.Valid() && b.hand.None? && forall p :: 0 <= p < |b.q.pubs| ==> !b.q.pubs[p].Sent?
    ensures b.q.enqueued == |b.q.ch| + b.out.sent + b.out.failed + |b.out.client.unconfirmed| + |b.out.client.resend|
  {
    hide Outlet.Valid;
    Sums.SumZeros(PublishQueue.Uncounted(b.q.pubs));
    LiveEndToEnd(b);
  }

  // ------------------------------------------------------------------ interleavings

  datatype Move =
    | Offering(p: nat, pair: nat, size: nat)
    | Stepping(a: PublishQueue.Action)
    | Handing
    | Ticking
    | Marking(pair: nat)

  /** The pairs a run of moves may offer. */
  function OfferedBy(moves: seq<Move>): set<nat>
  {
    if moves == [] then {}
    else OfferedBy(moves[..|moves| - 1]) + Offers(moves[|moves| - 1])
  }

  function Offers(m: Move): set<nat>
  {
    if m.Offering? then {m.pair} else {}
  }

  /** Every marked pair is that of some record put on the channel which, under the id it
      was handed over with, the client confirmed. */
  ghost predicate MarkedByRecord(put: seq<nat>, submitted: set<nat>, log: seq<Settled>)
  {
    forall pair :: pair in submitted ==>
      exists i :: 0 <= i < |log| && log[i].ok && log[i].rec.id < |put| && put[log[i].rec.id] == pair
  }

  lemma MarksFollowRecords(b: LiveBridge)
    requires b.Valid()
    ensures MarkedByRecord(b.put, b.out.submitted, b.out.client.books.log)
    ensures forall pair :: pair in b.out.submitted ==> pair in b.offered
  {
    var log, pairs := b.out.client.books.log, b.out.pairs;
    forall pair | pair in b.out.submitted
      ensures pair in b.offered
      ensures exists i :: 0 <= i < |log| && log[i].ok && log[i].rec.id < |b.put| && b.put[log[i].rec.id] == pair
    {
      var i :| 0 <= i < |log| && log[i].ok && log[i].rec.id in pairs && pairs[log[i].rec.id] == pair;
      assert b.put[log[i].rec.id] == b.out.handed[log[i].rec.id];
    }
  }

  /** Any interleaving of submissions, publisher steps, takes, deliveries and ticks,
      whatever the network does, from a new bridge, keeps the balance, and marks a pair
      only once a record put on the channel for it, and let through by the guard in one
      of these submissions, has been confirmed. A move that is not possible when its turn
      comes is passed over. */
  method Interleave(b: LiveBridge, moves: seq<Move>)
    requires b.Valid() && b.offered == {}
    modifies b, b.out, b.out.client
    ensures b.Valid()
    ensures b.q.enqueued + Sums.Sum(PublishQueue.Uncounted(b.q.pubs)) ==
            |b.q.ch| + (if b.hand.Some? then 1 else 0) +
            b.out.sent + b.out.failed + |b.out.client.unconfirmed| + |b.out.client.resend|
    ensures MarkedByRecord(b.put, b.out.submitted, b.out.client.books.log)
    ensures b.out.submitted <= OfferedBy(moves)
  {
    hide LiveBridge.Valid, Offers;
    for i := 0 to |moves|
      invariant b.Valid() && b.offered <= OfferedBy(moves[..i])
    {
      assert moves[..i + 1][..i] == moves[..i];
      MakeMove(b, moves[i]);
    }
    assert moves[..|moves|] == moves;
    LiveEndToEnd(b);
    MarksFollowRecords(b);
  }

  method MakeMove(b: LiveBridge, m: Move)
    requires b.Valid()
    modifies b, b.out, b.out.client
    ensures b.Valid() && b.offered <= old(b.offered) + Offers(m)
  {
    hide LiveBridge.Valid, PublishQueue.Apply;
    match m
    case Offering(p, pair, size) =>
      if PublishQueue.Enabled(b.q, b.opt, PublishQueue.Publish(p, size)) {
        var _ := b.Offer(p, pair, size);
      }
    case Stepping(a) =>
      if PublishQueue.Enabled(b.q, b.opt, a) && !a.Publish? {
        if !PublishQueue.OfDrain(a) {
          b.Publishing(a);
        } else if a.Receive? {
          if b.hand.None? {
            b.Receive();
          }
        } else {
          b.Taken(a);
        }
      }
    case Handing =>
      if b.hand.Some? && b.q.drain.Ready? {
        b.Deliver();
      }
    case Ticking =>
      if b.hand.None? {
        b.Tick();
      }
    case Marking(pair) =>
      b.MarkDelivered(pair);
  }
}
