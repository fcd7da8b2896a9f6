/**
  The up-tunnel client of uptunnel/uptunnel.go: records written on a connection
  are confirmed, resent on the next connection, or given up. Dialing, writes,
  the peer's close, the bytes it has acknowledged and the clock are the
  environment's choices, so every contract holds for all of them.
*/
module Uptunnel {
  import opened Bytes

  const MAX_UNCONFIRMED := 0x1_0000

  /** One written record. id stands for the pointer's identity; conn is the
      connection it was last written on; writes counts the successful writes. */
  datatype Pending = Pending(id: nat, size: nat, conn: nat, end: nat, at: nat, resends: nat, writes: nat)

  /** One successful write: on which connection, of which record, its bytes and when. */
  datatype Write = Write(conn: nat, id: nat, size: nat, at: nat)

  /** One connection. trusted says that acked came from a send-queue reading. */
  datatype Stream = Stream(id: nat, written: nat, acked: nat, trusted: bool, dead: bool, clean: bool)

  /** A record's end: confirmed or lost, and on which connection it stood. */
  datatype Settled = Settled(rec: Pending, ok: bool, stream: nat, trusted: bool)

  /** One call of a done function; a nil one is a call that does nothing. */
  datatype Callback = Callback(id: nat, ok: bool)

  // --------------------------------------------------------- ledgers of records

  function Ids(s: seq<Pending>): multiset<nat>
  {
    if s == [] then multiset{} else multiset{s[0].id} + Ids(s[1..])
  }

  function SettledIds(log: seq<Settled>): multiset<nat>
  {
    if log == [] then multiset{} else SettledIds(log[..|log| - 1]) + multiset{log[|log| - 1].rec.id}
  }

  function CountOk(log: seq<Settled>, ok: bool): nat
  {
    if log == [] then 0
    else CountOk(log[..|log| - 1], ok) + (if log[|log| - 1].ok == ok then 1 else 0)
  }

  function Callbacks(log: seq<Settled>): seq<Callback>
  {
    if log == [] then []
    else Callbacks(log[..|log| - 1]) + [Callback(log[|log| - 1].rec.id, log[|log| - 1].ok)]
  }

  lemma {:induction false} IdsAppend(s: seq<Pending>, r: Pending)
    ensures Ids(s + [r]) == Ids(s) + multiset{r.id}
  {
    if s == [] {
      assert s + [r] == [r];
    } else {
      IdsAppend(s[1..], r);
      assert (s + [r])[1..] == s[1..] + [r];
    }
  }

  lemma {:induction false} IdsSize(s: seq<Pending>)
    ensures |Ids(s)| == |s|
  {
    if s == [] {
    } else {
      IdsSize(s[1..]);
    }
  }

  lemma {:induction false} SettledSize(log: seq<Settled>)
    ensures |SettledIds(log)| == |log| == CountOk(log, true) + CountOk(log, false)
  {
    if log == [] {
    } else {
      SettledSize(log[..|log| - 1]);
    }
  }

  lemma SettledAppend(log: seq<Settled>, e: Settled)
    ensures SettledIds(log + [e]) == SettledIds(log) + multiset{e.rec.id}
    ensures CountOk(log + [e], e.ok) == CountOk(log, e.ok) + 1
    ensures CountOk(log + [e], !e.ok) == CountOk(log, !e.ok)
  {
    assert (log + [e])[..|log|] == log;
  }

  lemma CallbacksAppend(log: seq<Settled>, mark: nat, e: Settled)
    requires mark <= |log|
    ensures Callbacks((log + [e])[mark..]) == Callbacks(log[mark..]) + [Callback(e.rec.id, e.ok)]
  {
    assert (log + [e])[mark..] == log[mark..] + [e];
    assert (log[mark..] + [e])[..|log| - mark] == log[mark..];
  }

  /** What is left of a record's budget, over all records. */
  function Weight(s: seq<Pending>, max: nat): int
  {
    if s == [] then 0 else (max + 1 - s[0].resends) + Weight(s[1..], max)
  }

  lemma {:induction false} WeightAppend(s: seq<Pending>, r: Pending, max: nat)
    ensures Weight(s + [r], max) == Weight(s, max) + (max + 1 - r.resends)
  {
    if s == [] {
      assert s + [r] == [r];
    } else {
      WeightAppend(s[1..], r, max);
      assert (s + [r])[1..] == s[1..] + [r];
    }
  }

  predicate AtLeast(s: seq<Pending>, k: int)
  {
    forall i :: 0 <= i < |s| ==> s[i].resends >= k
  }

  lemma {:induction false} WeightPositive(s: seq<Pending>, max: nat)
    requires forall i :: 0 <= i < |s| ==> s[i].resends <= max
    ensures Weight(s, max) >= |s|
  {
    if s == [] {
    } else {
      WeightPositive(s[1..], max);
    }
  }

  // ----------------------------------------------------------- the write history

  /** The bytes written on a connection. */
  function BytesOn(wire: seq<Write>, conn: nat): nat
  {
    if wire == [] then 0
    else BytesOn(wire[..|wire| - 1], conn) + (if wire[|wire| - 1].conn == conn then wire[|wire| - 1].size else 0)
  }

  /** How often a record was written. */
  function WritesOf(wire: seq<Write>, id: nat): nat
  {
    if wire == [] then 0
    else WritesOf(wire[..|wire| - 1], id) + (if wire[|wire| - 1].id == id then 1 else 0)
  }

  /** The k-th write is r's, on its connection and at its time, and r ends where that
      write ends among the bytes of the connection. */
  predicate WrittenAs(wire: seq<Write>, r: Pending, k: nat)
  {
    k < |wire| && wire[k] == Write(r.conn, r.id, r.size, r.at) && r.end == BytesOn(wire[..k + 1], r.conn)
  }

  ghost predicate Recorded(wire: seq<Write>, r: Pending)
  {
    exists k :: WrittenAs(wire, r, k)
  }

  /** r counts its writes, all of the same bytes. */
  predicate Tallied(wire: seq<Write>, r: Pending)
  {
    r.writes == WritesOf(wire, r.id) && forall i :: 0 <= i < |wire| && wire[i].id == r.id ==> wire[i].size == r.size
  }

  lemma AppendWrite(wire: seq<Write>, x: Write)
    ensures forall c :: BytesOn(wire + [x], c) == BytesOn(wire, c) + (if x.conn == c then x.size else 0)
    ensures forall id :: WritesOf(wire + [x], id) == WritesOf(wire, id) + (if x.id == id then 1 else 0)
  {
    assert (wire + [x])[..|wire|] == wire;
  }

  lemma RecordedLater(wire: seq<Write>, x: Write, r: Pending)
    requires Recorded(wire, r)
    ensures Recorded(wire + [x], r)
  {
    var k :| WrittenAs(wire, r, k);
    assert (wire + [x])[..k + 1] == wire[..k + 1];
    assert WrittenAs(wire + [x], r, k);
  }

  lemma RecordedNow(wire: seq<Write>, r: Pending)
    requires r.end == BytesOn(wire, r.conn) + r.size
    ensures Recorded(wire + [Write(r.conn, r.id, r.size, r.at)], r)
  {
    var all := wire + [Write(r.conn, r.id, r.size, r.at)];
    AppendWrite(wire, Write(r.conn, r.id, r.size, r.at));
    assert all[..|wire| + 1] == all;
    assert WrittenAs(all, r, |wire|);
  }

  lemma {:induction false} NoBytesOn(wire: seq<Write>, conn: nat)
    requires forall i :: 0 <= i < |wire| ==> wire[i].conn != conn
    ensures BytesOn(wire, conn) == 0
  {
    if wire == [] {
    } else {
      NoBytesOn(wire[..|wire| - 1], conn);
    }
  }

  lemma {:induction false} NeverWritten(wire: seq<Write>, id: nat)
    requires forall i :: 0 <= i < |wire| ==> wire[i].id != id
    ensures WritesOf(wire, id) == 0
  {
    if wire == [] {
    } else {
      NeverWritten(wire[..|wire| - 1], id);
    }
  }

  lemma TalliedLater(wire: seq<Write>, x: Write, r: Pending)
    requires Tallied(wire, r) && x.id != r.id
    ensures Tallied(wire + [x], r)
  {
    AppendWrite(wire, x);
  }

  /** Records on a connection lie end to end in the bytes written on it. */
  predicate Packed(s: seq<Pending>, written: nat)
  {
    forall i :: 0 <= i < |s| ==> s[i].end + SizeOf(s[i + 1..]) == written
  }

  function SizeOf(s: seq<Pending>): nat
  {
    if s == [] then 0 else s[0].size + SizeOf(s[1..])
  }

  lemma {:induction false} SizeAppend(s: seq<Pending>, r: Pending)
    ensures SizeOf(s + [r]) == SizeOf(s) + r.size
  {
    if s == [] {
      assert s + [r] == [r];
    } else {
      SizeAppend(s[1..], r);
      assert (s + [r])[1..] == s[1..] + [r];
    }
  }

  lemma PackedAppend(s: seq<Pending>, written: nat, r: Pending)
    requires Packed(s, written) && r.end == written + r.size
    ensures Packed(s + [r], written + r.size)
  {
    forall i | 0 <= i < |s + [r]|
      ensures (s + [r])[i].end + SizeOf((s + [r])[i + 1..]) == written + r.size
    {
      if i < |s| {
        SizeAppend(s[i + 1..], r);
        assert (s + [r])[i + 1..] == s[i + 1..] + [r];
      } else {
        assert (s + [r])[i + 1..] == [];
      }
    }
  }

  lemma PackedSlice(s: seq<Pending>, written: nat, n: nat)
    requires Packed(s, written) && n <= |s|
    ensures Packed(s[n..], written)
  {
    forall i | 0 <= i < |s[n..]|
      ensures s[n..][i].end + SizeOf(s[n..][i + 1..]) == written
    {
      assert s[n..][i + 1..] == s[n + i + 1..];
    }
  }

  // ------------------------------------------------------------------- records

  /** A record written on the live connection. */
  predicate InFlight(r: Pending, nextId: nat, max: nat, wire: seq<Write>)
  {
    r.id < nextId && r.resends <= max && r.writes <= r.resends + 1 && Tallied(wire, r)
  }

  /** A record waiting for the next connection: it has spent a resend. */
  predicate Waiting(r: Pending, nextId: nat, max: nat, wire: seq<Write>)
  {
    r.id < nextId && 1 <= r.resends <= max && r.writes <= r.resends && Tallied(wire, r)
  }

  predicate AllInFlight(s: seq<Pending>, nextId: nat, max: nat, wire: seq<Write>)
  {
    forall i :: 0 <= i < |s| ==> InFlight(s[i], nextId, max, wire)
  }

  predicate AllWaiting(s: seq<Pending>, nextId: nat, max: nat, wire: seq<Write>)
  {
    forall i :: 0 <= i < |s| ==> Waiting(s[i], nextId, max, wire)
  }

  /** Oldest first: ends and write times never decrease. */
  predicate Ordered(s: seq<Pending>)
  {
    forall i, j :: 0 <= i < j < |s| ==> s[i].end <= s[j].end && s[i].at <= s[j].at
  }

  predicate Within(s: seq<Pending>, end: nat, at: nat)
  {
    forall i :: 0 <= i < |s| ==> s[i].end <= end && s[i].at <= at
  }

  /** Every record is in the history as written on connection id. */
  ghost predicate OnStream(wire: seq<Write>, s: seq<Pending>, id: nat)
  {
    forall i :: 0 <= i < |s| ==> s[i].conn == id && Recorded(wire, s[i])
  }

  /** u is what is in flight on connection id, on which written bytes were written: its
      records lie end to end in them, oldest first, as the history has them. */
  ghost predicate Flight(wire: seq<Write>, u: seq<Pending>, id: nat, written: nat, at: nat)
  {
    && written == BytesOn(wire, id)
    && OnStream(wire, u, id) && Packed(u, written) && Ordered(u) && Within(u, written, at)
  }

  lemma FlightFacts(wire: seq<Write>, u: seq<Pending>, id: nat, written: nat, at: nat)
    requires Flight(wire, u, id, written, at)
    ensures OnStream(wire, u, id) && Ordered(u) && Within(u, written, at)
  {
  }

  lemma FlightLater(wire: seq<Write>, u: seq<Pending>, id: nat, written: nat, at: nat, later: nat)
    requires Flight(wire, u, id, written, at) && at <= later
    ensures Flight(wire, u, id, written, later)
  {
  }

  lemma FlightNone(wire: seq<Write>, id: nat, written: nat, at: nat)
    requires written == BytesOn(wire, id)
    ensures Flight(wire, [], id, written, at)
  {
  }

  lemma FlightSlice(wire: seq<Write>, u: seq<Pending>, n: nat, id: nat, written: nat, at: nat)
    requires Flight(wire, u, id, written, at) && n <= |u|
    ensures Flight(wire, u[n..], id, written, at)
  {
    hide Recorded;
    PackedSlice(u, written, n);
  }

  lemma OnStreamGrows(wire: seq<Write>, s: seq<Pending>, r: Pending)
    requires OnStream(wire, s, r.conn) && r.end == BytesOn(wire, r.conn) + r.size
    ensures OnStream(wire + [Write(r.conn, r.id, r.size, r.at)], s + [r], r.conn)
  {
    RecordedNow(wire, r);
    hide Recorded;
    forall i | 0 <= i < |s|
      ensures Recorded(wire + [Write(r.conn, r.id, r.size, r.at)], s[i])
    {
      RecordedLater(wire, Write(r.conn, r.id, r.size, r.at), s[i]);
    }
  }

  /** A record just written at the end of a connection joins those in flight on it. */
  lemma FlightGrows(wire: seq<Write>, s: seq<Pending>, r: Pending, written: nat, at: nat)
    requires Flight(wire, s, r.conn, written, at)
    requires r.end == written + r.size && r.at >= at
    ensures Flight(wire + [Write(r.conn, r.id, r.size, r.at)], s + [r], r.conn, written + r.size, r.at)
  {
    hide Packed, OnStream, BytesOn;
    AppendWrite(wire, Write(r.conn, r.id, r.size, r.at));
    PackedAppend(s, written, r);
    OnStreamGrows(wire, s, r);
  }

  /** A settled record was written at most max + 1 times. It is confirmed only on the
      connection it was written on, and if that was from a reading, the peer had
      acknowledged its last byte there. Unless some reading has failed (blind), every
      confirmation is from one. Unless the client was closed, a record is lost only
      once it has spent its resends. */
  ghost predicate SettledOk(e: Settled, k: Books)
  {
    && e.rec.writes <= k.max + 1 && Tallied(k.wire, e.rec)
    && (e.ok ==> e.rec.conn == e.stream && Recorded(k.wire, e.rec))
    && (e.ok && !k.blind ==> e.trusted)
    && (!e.ok && !k.closed ==> e.rec.resends == k.max + 1)
    && (e.ok && e.trusted ==> e.stream in k.acks && e.rec.end <= k.acks[e.stream])
  }

  ghost predicate LogOk(k: Books)
  {
    forall i :: 0 <= i < |k.log| ==> SettledOk(k.log[i], k)
  }

  // --------------------------------------------------------------- the balance

  /** The books of a client: the settled log, every record accepted, the bytes
      acknowledged by connection, the counters, the callbacks due since the
      log was mark entries long, and the write history. */
  datatype Books = Books(
    log: seq<Settled>, accepted: multiset<nat>, nextId: nat, acks: map<nat, nat>, max: nat,
    confirmed: nat, lost: nat, mark: nat, cbs: seq<Callback>, blind: bool, closed: bool,
    wire: seq<Write>)

  /** Every accepted record is in exactly one place: in hand, in flight (u),
      waiting (w) or settled. The counters count, and the callbacks due are those
      of the records settled since the mark. */
  ghost predicate Balanced(k: Books, hand: multiset<nat>, u: seq<Pending>, w: seq<Pending>)
  {
    && hand + Ids(u) + Ids(w) + SettledIds(k.log) == k.accepted
    && Unique(k.accepted, k.nextId)
    && AllInFlight(u, k.nextId, k.max, k.wire) && AllWaiting(w, k.nextId, k.max, k.wire)
    && LogOk(k)
    && (forall i :: 0 <= i < |k.wire| ==> k.wire[i].id in k.accepted)
    && k.confirmed == CountOk(k.log, true) && k.lost == CountOk(k.log, false)
    && k.mark <= |k.log| && k.cbs == Callbacks(k.log[k.mark..])
  }

  ghost predicate Unique(accepted: multiset<nat>, nextId: nat)
  {
    forall id :: accepted[id] <= 1 && (id in accepted ==> id < nextId)
  }

  function Settle(k: Books, e: Settled): Books
  {
    k.(log := k.log + [e],
       confirmed := k.confirmed + (if e.ok then 1 else 0),
       lost := k.lost + (if e.ok then 0 else 1),
       cbs := k.cbs + [Callback(e.rec.id, e.ok)])
  }

  /** Between k and k' records were settled, and nothing else happened. */
  predicate Settles(k: Books, k': Books)
  {
    k' == k.(log := k'.log, confirmed := k'.confirmed, lost := k'.lost, cbs := k'.cbs) && k.log <= k'.log
  }

  lemma SettleBalances(k: Books, e: Settled, u: seq<Pending>, w: seq<Pending>)
    requires Balanced(k, multiset{e.rec.id}, u, w) && SettledOk(e, k)
    ensures Balanced(Settle(k, e), multiset{}, u, w)
  {
    SettledAppend(k.log, e);
    CallbacksAppend(k.log, k.mark, e);
    var k' := Settle(k, e);
    assert k'.mark <= |k'.log|;
    forall i | 0 <= i < |k'.log|
      ensures SettledOk(k'.log[i], k')
    {
      if i < |k.log| {
        assert SettledOk(k.log[i], k);
      }
    }
  }

  /** The log stays right when the books change in what it does not speak of. */
  lemma SameLog(k: Books, k': Books)
    requires LogOk(k) && k'.log == k.log && k'.max == k.max && k'.wire == k.wire && k'.acks == k.acks
    requires k'.blind == k.blind && k'.closed == k.closed
    ensures LogOk(k')
  {
    forall i | 0 <= i < |k'.log|
      ensures SettledOk(k'.log[i], k')
    {
      assert SettledOk(k.log[i], k);
    }
  }

  lemma {:induction false} MemberIds(s: seq<Pending>, i: nat)
    requires i < |s|
    ensures s[i].id in Ids(s)
  {
    if i == 0 {
    } else {
      MemberIds(s[1..], i - 1);
    }
  }

  lemma {:induction false} SettledMember(log: seq<Settled>, i: nat)
    requires i < |log|
    ensures log[i].rec.id in SettledIds(log)
  {
    if i < |log| - 1 {
      SettledMember(log[..|log| - 1], i);
    }
  }

  /** The record in hand is nobody else. */
  lemma InHandOnly(k: Books, id: nat, u: seq<Pending>, w: seq<Pending>)
    requires Balanced(k, multiset{id}, u, w)
    ensures id !in Ids(u) && id !in Ids(w) && id !in SettledIds(k.log) && id in k.accepted
  {
    hide Callbacks, CountOk, SettledIds, Ids;
    assert (multiset{id} + Ids(u) + Ids(w) + SettledIds(k.log))[id] == k.accepted[id] <= 1;
  }

  /** A write of a record that is not settled leaves the log right. */
  lemma WriteKeepsLog(k: Books, x: Write)
    requires LogOk(k) && x.id !in SettledIds(k.log)
    ensures LogOk(k.(wire := k.wire + [x]))
  {
    hide SettledIds, Recorded, Tallied;
    forall i | 0 <= i < |k.log|
      ensures SettledOk(k.log[i], k.(wire := k.wire + [x]))
    {
      SettledMember(k.log, i);
      assert SettledOk(k.log[i], k);
      TalliedLater(k.wire, x, k.log[i].rec);
      if k.log[i].ok {
        RecordedLater(k.wire, x, k.log[i].rec);
      }
    }
  }

  lemma WriteKeepsOthers(nextId: nat, max: nat, wire: seq<Write>, x: Write, u: seq<Pending>, w: seq<Pending>)
    requires AllInFlight(u, nextId, max, wire) && AllWaiting(w, nextId, max, wire) && x.id !in Ids(u) && x.id !in Ids(w)
    ensures AllInFlight(u, nextId, max, wire + [x]) && AllWaiting(w, nextId, max, wire + [x])
  {
    hide Ids, Tallied;
    forall i | 0 <= i < |u|
      ensures InFlight(u[i], nextId, max, wire + [x])
    {
      MemberIds(u, i);
      assert InFlight(u[i], nextId, max, wire);
      TalliedLater(wire, x, u[i]);
    }
    forall i | 0 <= i < |w|
      ensures Waiting(w[i], nextId, max, wire + [x])
    {
      MemberIds(w, i);
      assert Waiting(w[i], nextId, max, wire);
      TalliedLater(wire, x, w[i]);
    }
  }

  /** The record in hand is written once more. */
  lemma WriteBalances(k: Books, x: Write, u: seq<Pending>, w: seq<Pending>)
    requires Balanced(k, multiset{x.id}, u, w)
    ensures Balanced(k.(wire := k.wire + [x]), multiset{x.id}, u, w)
  {
    InHandOnly(k, x.id, u, w);
    WriteKeepsLog(k, x);
    WriteKeepsOthers(k.nextId, k.max, k.wire, x, u, w);
    hide Callbacks, CountOk, SettledIds, Ids, LogOk, AllInFlight, AllWaiting;
  }

  /** The oldest record in flight is taken in hand. */
  lemma TakeBalances(k: Books, u: seq<Pending>, w: seq<Pending>)
    requires Balanced(k, multiset{}, u, w) && u != []
    ensures Balanced(k, multiset{u[0].id}, u[1..], w)
  {
    hide Callbacks, CountOk, SettledIds;
  }

  lemma TakeWaitingBalances(k: Books, u: seq<Pending>, w: seq<Pending>)
    requires Balanced(k, multiset{}, u, w) && w != []
    ensures Balanced(k, multiset{w[0].id}, u, w[1..])
  {
    hide Callbacks, CountOk, SettledIds;
  }

  /** The record in hand joins those waiting. */
  lemma QueueBalances(k: Books, r: Pending, u: seq<Pending>, w: seq<Pending>)
    requires Balanced(k, multiset{r.id}, u, w) && Waiting(r, k.nextId, k.max, k.wire)
    ensures Balanced(k, multiset{}, u, w + [r])
  {
    hide Callbacks, CountOk, SettledIds;
    IdsAppend(w, r);
  }

  /** The record in hand joins those in flight. */
  lemma FlyBalances(k: Books, r: Pending, u: seq<Pending>, w: seq<Pending>)
    requires Balanced(k, multiset{r.id}, u, w) && InFlight(r, k.nextId, k.max, k.wire)
    ensures Balanced(k, multiset{}, u + [r], w)
  {
    hide Callbacks, CountOk, SettledIds;
    IdsAppend(u, r);
  }

  /** A new record is accepted and is in hand. */
  lemma AcceptBalances(k: Books, id: nat, u: seq<Pending>, w: seq<Pending>)
    requires Balanced(k, multiset{}, u, w) && id < k.nextId && id !in k.accepted
    ensures Balanced(k.(accepted := k.accepted + multiset{id}), multiset{id}, u, w)
  {
    hide Callbacks, CountOk, SettledIds, Ids;
    SameLog(k, k.(accepted := k.accepted + multiset{id}));
  }

  lemma NextIdBalances(k: Books, u: seq<Pending>, w: seq<Pending>)
    requires Balanced(k, multiset{}, u, w)
    ensures Balanced(k.(nextId := k.nextId + 1), multiset{}, u, w) && k.nextId !in k.accepted
  {
    hide Callbacks, CountOk, SettledIds, Ids;
    SameLog(k, k.(nextId := k.nextId + 1));
  }

  /** Only more bytes acknowledged. */
  ghost predicate MoreAcked(acks: map<nat, nat>, acks': map<nat, nat>)
  {
    forall s :: s in acks ==> s in acks' && acks[s] <= acks'[s]
  }

  lemma AcksBalance(k: Books, acks: map<nat, nat>, hand: multiset<nat>, u: seq<Pending>, w: seq<Pending>)
    requires Balanced(k, hand, u, w) && MoreAcked(k.acks, acks)
    ensures Balanced(k.(acks := acks), hand, u, w)
  {
    hide Callbacks, CountOk, SettledIds, Ids;
    forall i | 0 <= i < |k.log| ensures SettledOk(k.log[i], k.(acks := acks)) {
      assert SettledOk(k.log[i], k);
    }
  }

  /** A reading failed. */
  lemma BlindBalances(k: Books, u: seq<Pending>, w: seq<Pending>)
    requires Balanced(k, multiset{}, u, w)
    ensures Balanced(k.(blind := true), multiset{}, u, w)
  {
    hide Callbacks, CountOk, SettledIds, Ids;
    forall i | 0 <= i < |k.log| ensures SettledOk(k.log[i], k.(blind := true)) {
      assert SettledOk(k.log[i], k);
    }
  }

  /** The client is closed. */
  lemma ClosedBalances(k: Books, u: seq<Pending>, w: seq<Pending>)
    requires Balanced(k, multiset{}, u, w)
    ensures Balanced(k.(closed := true), multiset{}, u, w)
  {
    hide Callbacks, CountOk, SettledIds, Ids;
    forall i | 0 <= i < |k.log| ensures SettledOk(k.log[i], k.(closed := true)) {
      assert SettledOk(k.log[i], k);
    }
  }

  /** The lock is released: the callbacks are handed over. */
  lemma MarkBalances(k: Books, u: seq<Pending>, w: seq<Pending>)
    requires Balanced(k, multiset{}, u, w)
    ensures Balanced(k.(mark := |k.log|, cbs := []), multiset{}, u, w)
  {
    hide CountOk, SettledIds, Ids;
    SameLog(k, k.(mark := |k.log|, cbs := []));
  }

  /** Waiting records read as records in flight, when none is. */
  lemma WaitingAsFlying(k: Books, w: seq<Pending>)
    requires Balanced(k, multiset{}, [], w)
    ensures Balanced(k, multiset{}, w, [])
  {
    hide Callbacks, CountOk, SettledIds;
    forall i | 0 <= i < |w| ensures InFlight(w[i], k.nextId, k.max, k.wire) {
      assert Waiting(w[i], k.nextId, k.max, k.wire);
    }
  }

  /** Settlement: an accepted record is in exactly one of flight, the waiting
      list and the log, once; and the counters add up. */
  lemma ExactlyOnePlace(k: Books, u: seq<Pending>, w: seq<Pending>)
    requires Balanced(k, multiset{}, u, w)
    ensures forall id :: id in k.accepted ==> Ids(u)[id] + Ids(w)[id] + SettledIds(k.log)[id] == 1
    ensures forall id :: id !in k.accepted ==> Ids(u)[id] + Ids(w)[id] + SettledIds(k.log)[id] == 0
    ensures |k.accepted| == k.confirmed + k.lost + |u| + |w|
  {
    IdsSize(u);
    IdsSize(w);
    SettledSize(k.log);
    hide Callbacks, CountOk, SettledIds, Ids;
    assert k.accepted == Ids(u) + Ids(w) + SettledIds(k.log);
  }

  function CallsOf(cs: seq<Callback>, id: nat): nat
  {
    if cs == [] then 0 else CallsOf(cs[..|cs| - 1], id) + (if cs[|cs| - 1].id == id then 1 else 0)
  }

  lemma {:induction false} CallsSettled(log: seq<Settled>, id: nat)
    ensures CallsOf(Callbacks(log), id) == SettledIds(log)[id]
  {
    if log == [] {
    } else {
      CallsSettled(log[..|log| - 1], id);
      var cs, c := Callbacks(log[..|log| - 1]), Callback(log[|log| - 1].rec.id, log[|log| - 1].ok);
      assert (cs + [c])[..|cs|] == cs;
    }
  }

  /** Over a client's whole life done is called at most once for a record, only
      for an accepted one, and exactly once when it is neither in flight nor
      waiting any more. */
  lemma DoneExactlyOnce(k: Books, u: seq<Pending>, w: seq<Pending>, id: nat)
    requires Balanced(k, multiset{}, u, w)
    ensures CallsOf(Callbacks(k.log), id) == k.accepted[id] - Ids(u)[id] - Ids(w)[id] <= 1
  {
    CallsSettled(k.log, id);
  }
}
