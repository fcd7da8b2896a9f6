/**
  The engine queue of feed/feed.go: deliveries booked and queued by any number of
  handlers, taken by the workers of Start, and drained once its context ends, as
  atomic steps interleaved in any order.
*/
module FeedDrain {
  import opened Sums

  datatype Job = Job(id: nat, size: nat)

  datatype Options = Options(workers: nat, queueDepth: int, queueBytes: int)

  /** Where a lane handler stands in Handle's queue section. */
  datatype Handler =
    | Away
    | Arrived(job: Job)    // about to ask whether the workers are started
    | Admitted(job: Job)   // they were
    | Booked(job: Job)     // its bytes are counted and within the bound
    | Refused(job: Job)    // its bytes are counted, to be given back

  /** Where a worker stands. draining tells which of the two selects it returns to. */
  datatype Worker =
    | Waiting
    | Draining
    | Got(job: Job, draining: bool)         // off the queue, its bytes still counted
    | Submitting(job: Job, draining: bool)
    | Exited

  datatype Feed = Feed(
    queuedBytes: int,
    queue: seq<Job>,
    handlers: seq<Handler>,
    workers: seq<Worker>,
    started: bool,
    cancelled: bool,
    accepted: seq<Job>,   // what Handle answered nil for, in order
    taken: seq<Job>,      // what workers took, in order
    done: multiset<Job>,  // what they finished submitting
    shed: nat,
    mark: nat,            // how much was accepted when the context ended
    last: nat)            // how much was accepted when a worker last exited

  datatype Action =
    | Arrive(h: nat, job: Job)
    | Check(h: nat)
    | Book(h: nat)
    | Put(h: nat)
    | GiveBack(h: nat)
    | Start
    | Cancel
    | Receive(w: nat)
    | SeeCancel(w: nat)
    | Uncount(w: nat)
    | Finish(w: nat)
    | Exit(w: nat)
    | Return

  function Depth(o: Options): nat { if o.queueDepth <= 0 then 256 else o.queueDepth }

  function Init(o: Options, handlers: nat): Feed
  {
    Feed(0, [], seq(handlers, _ => Away), seq(o.workers, _ => Exited),
         false, false, [], [], multiset{}, 0, 0, 0)
  }

  predicate AllExited(ws: seq<Worker>) { forall i :: 0 <= i < |ws| ==> ws[i].Exited? }

  predicate Enabled(f: Feed, a: Action)
  {
    match a
    case Arrive(h, _) => h < |f.handlers| && f.handlers[h].Away?
    case Check(h) => h < |f.handlers| && f.handlers[h].Arrived?
    case Book(h) => h < |f.handlers| && f.handlers[h].Admitted?
    case Put(h) => h < |f.handlers| && f.handlers[h].Booked?
    case GiveBack(h) => h < |f.handlers| && f.handlers[h].Refused?
    case Start => !f.started
    case Cancel => f.started && !f.cancelled
    case Receive(w) => w < |f.workers| && f.queue != [] && (f.workers[w].Waiting? || f.workers[w].Draining?)
    case SeeCancel(w) => w < |f.workers| && f.cancelled && f.workers[w].Waiting?
    case Uncount(w) => w < |f.workers| && f.workers[w].Got?
    case Finish(w) => w < |f.workers| && f.workers[w].Submitting?
    case Exit(w) => w < |f.workers| && f.queue == [] && f.workers[w].Draining?
    case Return => f.started && f.cancelled && AllExited(f.workers)
  }

  function Apply(f: Feed, o: Options, a: Action): Feed
    requires Enabled(f, a)
  {
    match a
    case Arrive(h, job) => f.(handlers := f.handlers[h := Arrived(job)])
    case Check(h) =>
      if f.started then f.(handlers := f.handlers[h := Admitted(f.handlers[h].job)])
      else f.(handlers := f.handlers[h := Away], shed := f.shed + 1)
    case Book(h) =>
      var job := f.handlers[h].job;
      var b := f.queuedBytes + job.size;
      f.(queuedBytes := b,
         handlers := f.handlers[h := if o.queueBytes > 0 && b > o.queueBytes then Refused(job) else Booked(job)])
    case Put(h) =>
      var job := f.handlers[h].job;
      if |f.queue| < Depth(o) then
        f.(queue := f.queue + [job], accepted := f.accepted + [job], handlers := f.handlers[h := Away])
      else f.(handlers := f.handlers[h := Refused(job)])
    case GiveBack(h) =>
      f.(queuedBytes := f.queuedBytes - f.handlers[h].job.size, shed := f.shed + 1,
         handlers := f.handlers[h := Away])
    case Start => f.(started := true, cancelled := false, workers := seq(|f.workers|, _ => Waiting))
    case Cancel => f.(cancelled := true, mark := |f.accepted|)
    case Receive(w) =>
      f.(queue := f.queue[1..], taken := f.taken + [f.queue[0]],
         workers := f.workers[w := Got(f.queue[0], f.workers[w].Draining?)])
    case SeeCancel(w) => f.(workers := f.workers[w := Draining])
    case Uncount(w) =>
      f.(queuedBytes := f.queuedBytes - f.workers[w].job.size,
         workers := f.workers[w := Submitting(f.workers[w].job, f.workers[w].draining)])
    case Finish(w) =>
      f.(done := f.done + multiset{f.workers[w].job},
         workers := f.workers[w := if f.workers[w].draining then Draining else Waiting])
    case Exit(w) => f.(workers := f.workers[w := Exited], last := |f.accepted|)
    case Return => f.(started := false)
  }

  predicate EnabledRun(f: Feed, o: Options, run: seq<Action>)
    decreases run
  {
    run == [] || (Enabled(f, run[0]) && EnabledRun(Apply(f, o, run[0]), o, run[1..]))
  }

  function Run(f: Feed, o: Options, run: seq<Action>): Feed
    requires EnabledRun(f, o, run)
    decreases run
  {
    if run == [] then f else Run(Apply(f, o, run[0]), o, run[1..])
  }

  // ------------------------------------------------------------------ what drains

  /** How many workers hold the job j. */
  function Held(ws: seq<Worker>, j: Job): nat
  {
    if ws == [] then 0 else HeldBy(ws[0], j) + Held(ws[1..], j)
  }

  function HeldBy(w: Worker, j: Job): nat
  {
    if (w.Got? || w.Submitting?) && w.job == j then 1 else 0
  }

  lemma {:induction false} HeldUpdate(ws: seq<Worker>, i: nat, w: Worker, j: Job)
    requires i < |ws|
    ensures Held(ws[i := w], j) == Held(ws, j) - HeldBy(ws[i], j) + HeldBy(w, j)
    decreases |ws|
  {
    if i == 0 {
      assert ws[i := w][1..] == ws[1..];
    } else {
      HeldUpdate(ws[1..], i - 1, w, j);
      assert ws[i := w][1..] == ws[1..][i - 1 := w];
    }
  }

  predicate Idle(w: Worker) { w.Exited? || w.Waiting? || w.Draining? }

  lemma {:induction false} HeldNone(ws: seq<Worker>, j: Job)
    requires forall i :: 0 <= i < |ws| ==> Idle(ws[i])
    ensures Held(ws, j) == 0
  {
    if ws == [] {
    } else {
      HeldNone(ws[1..], j);
    }
  }

  /** A worker that has not noticed the end of the context. */
  predicate Serving(w: Worker)
  {
    w.Waiting? || ((w.Got? || w.Submitting?) && !w.draining)
  }

  ghost predicate Phased(f: Feed)
  {
    && |f.workers| > 0
    && (!f.started ==> AllExited(f.workers))
    && (f.started && !f.cancelled ==> forall i :: 0 <= i < |f.workers| ==> Serving(f.workers[i]))
    && f.mark <= |f.accepted|
    && (AllExited(f.workers) ==> |f.taken| == f.last && f.mark <= f.last)
  }

  ghost predicate DrainInv(f: Feed)
  {
    && Phased(f)
    && f.accepted == f.taken + f.queue
    && forall j :: Accounted(f, j)
  }

  lemma StepPhased(f: Feed, o: Options, a: Action)
    requires DrainInv(f) && Enabled(f, a)
    ensures Phased(Apply(f, o, a))
  {
    hide Held;
    var f' := Apply(f, o, a);
    if a.Cancel? || a.Start? {
      assert !f'.workers[0].Exited?;
    } else if a.Receive? || a.SeeCancel? || a.Uncount? || a.Finish? {
      assert !f'.workers[a.w].Exited?;
    }
  }

  /** Every job taken is finished or held, as often as it was taken. */
  predicate Accounted(f: Feed, j: Job)
  {
    multiset(f.taken)[j] == f.done[j] + Held(f.workers, j)
  }

  lemma StepHeld(f: Feed, o: Options, a: Action, j: Job)
    requires DrainInv(f) && Enabled(f, a)
    ensures Accounted(Apply(f, o, a), j)
  {
    assert Accounted(f, j);
    if OfWorker(a) {
      WorkerHeld(f, o, a, j);
    } else if a.Start? {
      HeldNone(f.workers, j);
      HeldNone(Apply(f, o, a).workers, j);
    }
  }

  lemma WorkerHeld(f: Feed, o: Options, a: Action, j: Job)
    requires Accounted(f, j) && Enabled(f, a) && OfWorker(a)
    ensures Accounted(Apply(f, o, a), j)
  {
    hide Held;
    var f' := Apply(f, o, a);
    HeldUpdate(f.workers, a.w, f'.workers[a.w], j);
    if a.Receive? {
      assert multiset(f'.taken) == multiset(f.taken) + multiset{f.queue[0]};
    }
  }

  lemma StepOrder(f: Feed, o: Options, a: Action)
    requires Enabled(f, a) && f.accepted == f.taken + f.queue
    ensures var f' := Apply(f, o, a); f'.accepted == f'.taken + f'.queue
  {
    if a.Receive? {
      assert f.queue == [f.queue[0]] + f.queue[1..];
    }
  }

  lemma StepDrain(f: Feed, o: Options, a: Action)
    requires DrainInv(f) && Enabled(f, a)
    ensures DrainInv(Apply(f, o, a))
  {
    StepPhased(f, o, a);
    forall j
      ensures Accounted(Apply(f, o, a), j)
    {
      StepHeld(f, o, a, j);
    }
    StepOrder(f, o, a);
  }

  lemma {:induction false} RunDrain(f: Feed, o: Options, run: seq<Action>)
    requires DrainInv(f) && EnabledRun(f, o, run)
    ensures DrainInv(Run(f, o, run))
    decreases run
  {
    if run == [] {
    } else {
      StepDrain(f, o, run[0]);
      RunDrain(Apply(f, o, run[0]), o, run[1..]);
    }
  }

  lemma InitDrain(o: Options, handlers: nat)
    requires o.workers > 0
    ensures DrainInv(Init(o, handlers))
  {
    forall j
      ensures Accounted(Init(o, handlers), j)
    {
      HeldNone(Init(o, handlers).workers, j);
    }
  }

  lemma {:induction false} RunSplit(f: Feed, o: Options, a: seq<Action>, b: seq<Action>)
    requires EnabledRun(f, o, a + b)
    ensures EnabledRun(f, o, a) && EnabledRun(Run(f, o, a), o, b)
    ensures Run(f, o, a + b) == Run(Run(f, o, a), o, b)
    decreases a
  {
    if a == [] {
      assert a + b == b;
    } else {
      assert (a + b)[1..] == a[1..] + b;
      RunSplit(Apply(f, o, a[0]), o, a[1..], b);
    }
  }

  predicate Within<T(==)>(a: seq<T>, b: seq<T>) { |a| <= |b| && b[..|a|] == a }

  predicate NoStart(run: seq<Action>) { Start !in run }

  /** What is accepted and taken only grows; the mark of a cancelled Start stays
      until another Start. */
  lemma {:induction false} RunGrows(f: Feed, o: Options, run: seq<Action>)
    requires EnabledRun(f, o, run)
    ensures Within(f.accepted, Run(f, o, run).accepted) && Within(f.taken, Run(f, o, run).taken)
    ensures f.cancelled && NoStart(run) ==> Run(f, o, run).cancelled && Run(f, o, run).mark == f.mark
    decreases run
  {
    if run == [] {
    } else {
      var f' := Apply(f, o, run[0]);
      RunGrows(f', o, run[1..]);
      var l := Run(f, o, run);
      assert Within(f.accepted, f'.accepted) && Within(f.taken, f'.taken);
      assert l.accepted[..|f.accepted|] == l.accepted[..|f'.accepted|][..|f.accepted|];
      assert l.taken[..|f.taken|] == l.taken[..|f'.taken|][..|f.taken|];
    }
  }

  /** Whatever happened before, and however deliveries and workers interleave after
      the context ends: when Start returns, the objects taken are the first ones
      accepted, each once and in order; they include everything accepted before the
      context ended; and every one of them was submitted to its end. */
  lemma DrainComplete(o: Options, handlers: nat, before: seq<Action>, after: seq<Action>)
    requires o.workers > 0 && NoStart(after)
    requires EnabledRun(Init(o, handlers), o, before + ([Cancel] + after + [Return]))
    ensures EnabledRun(Init(o, handlers), o, before)
    ensures var ended := Run(Init(o, handlers), o, before);
            var f := Run(Init(o, handlers), o, before + ([Cancel] + after + [Return]));
            && Within(ended.accepted, f.taken)
            && Within(f.taken, f.accepted)
            && f.done == multiset(f.taken)
            && f.accepted == f.taken + f.queue
  {
    var init := Init(o, handlers);
    var rest := [Cancel] + after + [Return];
    RunSplit(init, o, before, rest);
    var ended := Run(init, o, before);
    var cut := Apply(ended, o, Cancel);
    assert rest[0] == Cancel && rest[1..] == after + [Return];
    RunGrows(cut, o, after + [Return]);
    var f := Run(cut, o, after + [Return]);
    InitDrain(o, handlers);
    RunDrain(init, o, before + rest);
    Returned(cut, o, after);
    forall j
      ensures multiset(f.taken)[j] == f.done[j]
    {
      assert Accounted(f, j);
      HeldNone(f.workers, j);
    }
    assert ended.accepted == cut.accepted;
    assert f.accepted[..|f.taken|] == f.taken;
    assert f.taken[..|ended.accepted|] == f.accepted[..|ended.accepted|];
  }

  lemma Returned(f: Feed, o: Options, after: seq<Action>)
    requires EnabledRun(f, o, after + [Return])
    ensures AllExited(Run(f, o, after + [Return]).workers) && !Run(f, o, after + [Return]).started
  {
    RunSplit(f, o, after, [Return]);
    var g := Run(f, o, after);
    assert Enabled(g, [Return][0]);
    assert Run(g, o, [Return]) == Run(Apply(g, o, Return), o, []);
  }

  /** With Start not running, what is left on the queue is exactly what was accepted
      after the last worker had exited. */
  lemma LeftBehind(o: Options, handlers: nat, run: seq<Action>)
    requires o.workers > 0 && EnabledRun(Init(o, handlers), o, run)
    requires !Run(Init(o, handlers), o, run).started
    ensures var f := Run(Init(o, handlers), o, run);
            && f.mark <= f.last <= |f.accepted|
            && f.taken == f.accepted[..f.last] && f.queue == f.accepted[f.last..]
  {
    InitDrain(o, handlers);
    RunDrain(Init(o, handlers), o, run);
  }

  /** Such objects exist: a handler that saw the workers started may queue its object,
      and answer the lane without error, once the only worker has gone. */
  lemma AcceptedAndStranded(j: Job)
    ensures var o := Options(1, 0, 0);
            var run := [Start, Arrive(0, j), Check(0), Cancel, SeeCancel(0), Exit(0), Book(0), Put(0), Return];
            && EnabledRun(Init(o, 1), o, run)
            && var f := Run(Init(o, 1), o, run);
               !f.started && f.accepted == [j] && f.taken == [] && f.shed == 0
  {
    hide Run, EnabledRun;
    var o := Options(1, 0, 0);
    var f3 := Feed(0, [], [Admitted(j)], [Waiting], true, false, [], [], multiset{}, 0, 0, 0);
    var f4 := Apply(f3, o, Cancel);
    var f5 := Apply(f4, o, SeeCancel(0));
    var tail := [Exit(0), Book(0), Put(0), Return];
    StrandingTail(f5, o, j);
    var f9 := Run(f5, o, tail);
    RunsTo(f4, o, SeeCancel(0), tail, f9);
    RunsTo(f3, o, Cancel, [SeeCancel(0)] + tail, f9);
    StrandingHead(o, j, f3, [Cancel] + ([SeeCancel(0)] + tail), f9);
    assert [Start, Arrive(0, j), Check(0), Cancel, SeeCancel(0), Exit(0), Book(0), Put(0), Return]
        == [Start] + ([Arrive(0, j)] + ([Check(0)] + ([Cancel] + ([SeeCancel(0)] + tail))));
  }

  lemma StrandingHead(o: Options, j: Job, f: Feed, rest: seq<Action>, end: Feed)
    requires o == Options(1, 0, 0) && EnabledRun(f, o, rest) && Run(f, o, rest) == end
    requires f == Feed(0, [], [Admitted(j)], [Waiting], true, false, [], [], multiset{}, 0, 0, 0)
    ensures var run := [Start] + ([Arrive(0, j)] + ([Check(0)] + rest));
            EnabledRun(Init(o, 1), o, run) && Run(Init(o, 1), o, run) == end
  {
    hide Run, EnabledRun;
    var f0 := Init(o, 1);
    var f1 := Apply(f0, o, Start);
    var f2 := Apply(f1, o, Arrive(0, j));
    assert f2.handlers == [Arrived(j)] && f2.workers == [Waiting];
    assert Apply(f2, o, Check(0)) == f;
    RunsTo(f2, o, Check(0), rest, end);
    RunsTo(f1, o, Arrive(0, j), [Check(0)] + rest, end);
    RunsTo(f0, o, Start, [Arrive(0, j)] + ([Check(0)] + rest), end);
  }

  lemma StrandingTail(f: Feed, o: Options, j: Job)
    requires f.started && f.cancelled && f.workers == [Draining] && f.handlers == [Admitted(j)] && f.queue == []
    requires o.queueBytes <= 0
    ensures var run := [Exit(0), Book(0), Put(0), Return];
            && EnabledRun(f, o, run)
            && var g := Run(f, o, run);
               !g.started && g.accepted == f.accepted + [j] && g.taken == f.taken && g.shed == f.shed
  {
    var f1 := Apply(f, o, Exit(0));
    var f2 := Apply(f1, o, Book(0));
    var f3 := Apply(f2, o, Put(0));
    var f4 := Apply(f3, o, Return);
    assert [Return] + [] == [Return];
    RunsTo(f3, o, Return, [], f4);
    RunsTo(f2, o, Put(0), [Return], f4);
    RunsTo(f1, o, Book(0), [Put(0)] + [Return], f4);
    RunsTo(f, o, Exit(0), [Book(0)] + ([Put(0)] + [Return]), f4);
    assert [Exit(0), Book(0), Put(0), Return] == [Exit(0)] + ([Book(0)] + ([Put(0)] + [Return]));
  }

  lemma RunsTo(f: Feed, o: Options, a: Action, rest: seq<Action>, end: Feed)
    requires Enabled(f, a) && EnabledRun(Apply(f, o, a), o, rest) && Run(Apply(f, o, a), o, rest) == end
    ensures EnabledRun(f, o, [a] + rest) && Run(f, o, [a] + rest) == end
  {
    assert ([a] + rest)[1..] == rest;
  }

  // --------------------------------------------------------------- the drain ends

  function Rank(w: Worker): nat
  {
    match w
    case Exited => 0
    case Draining => 1
    case Waiting => 2
    case Submitting(_, d) => if d then 2 else 3
    case Got(_, d) => if d then 3 else 4
  }

  function Ranks(ws: seq<Worker>): nat
  {
    if ws == [] then 0 else Rank(ws[0]) + Ranks(ws[1..])
  }

  /** How many steps workers may still take if nothing more arrives. */
  function Work(f: Feed): nat { 3 * |f.queue| + Ranks(f.workers) }

  lemma {:induction false} RanksUpdate(ws: seq<Worker>, i: nat, w: Worker)
    requires i < |ws|
    ensures Ranks(ws[i := w]) == Ranks(ws) - Rank(ws[i]) + Rank(w)
    decreases |ws|
  {
    if i == 0 {
      assert ws[i := w][1..] == ws[1..];
    } else {
      RanksUpdate(ws[1..], i - 1, w);
      assert ws[i := w][1..] == ws[1..][i - 1 := w];
    }
  }

  predicate OfWorker(a: Action) { a.Receive? || a.SeeCancel? || a.Uncount? || a.Finish? || a.Exit? }

  function Puts(run: seq<Action>): nat
  {
    if run == [] then 0 else (if run[0].Put? then 1 else 0) + Puts(run[1..])
  }

  function WorkerSteps(run: seq<Action>): nat
  {
    if run == [] then 0 else (if OfWorker(run[0]) then 1 else 0) + WorkerSteps(run[1..])
  }

  lemma StepWork(f: Feed, o: Options, a: Action)
    requires Enabled(f, a) && !a.Start?
    ensures Work(Apply(f, o, a)) + (if OfWorker(a) then 1 else 0) <= Work(f) + (if a.Put? then 3 else 0)
  {
    if OfWorker(a) {
      RanksUpdate(f.workers, a.w, Apply(f, o, a).workers[a.w]);
    }
  }

  /** In any run of one Start the workers take at most Work steps, and three more for
      each object that arrives meanwhile. */
  lemma {:induction false} DrainBounded(f: Feed, o: Options, run: seq<Action>)
    requires EnabledRun(f, o, run) && NoStart(run)
    ensures WorkerSteps(run) + Work(Run(f, o, run)) <= Work(f) + 3 * Puts(run)
    decreases run
  {
    if run == [] {
    } else {
      StepWork(f, o, run[0]);
      DrainBounded(Apply(f, o, run[0]), o, run[1..]);
    }
  }

  /** And the drain is never stuck: until Start returns, a worker or the return can move. */
  lemma DrainMoves(f: Feed)
    requires f.started && f.cancelled
    ensures exists a :: Enabled(f, a) && (OfWorker(a) || a.Return?)
  {
    if AllExited(f.workers) {
      assert Enabled(f, Return);
    } else {
      var w: nat :| w < |f.workers| && !f.workers[w].Exited?;
      var a := match f.workers[w]
        case Waiting => SeeCancel(w)
        case Draining => if f.queue == [] then Exit(w) else Receive(w)
        case Got(_, _) => Uncount(w)
        case _ => Finish(w);
      assert Enabled(f, a);
    }
  }

  // -------------------------------------------------------------- the byte ledger

  function Counted(h: Handler): nat { if h.Booked? || h.Refused? then h.job.size else 0 }

  function Kept(h: Handler): nat { if h.Booked? then h.job.size else 0 }

  function Carried(w: Worker): nat { if w.Got? then w.job.size else 0 }

  function Size(j: Job): nat { j.size }

  lemma KeptAtMostCounted(hs: seq<Handler>)
    ensures Sum(Each(hs, Kept)) <= Sum(Each(hs, Counted))
  {
    SumAtMost(Each(hs, Kept), Each(hs, Counted));
  }

  /** The bytes the feed holds for the queue: queued, about to be, or just taken. */
  function Memory(f: Feed): nat
  {
    Sum(Each(f.queue, Size)) + Sum(Each(f.handlers, Kept)) + Sum(Each(f.workers, Carried))
  }

  ghost predicate LedgerInv(f: Feed, o: Options)
  {
    && f.queuedBytes == Sum(Each(f.queue, Size)) + Sum(Each(f.handlers, Counted)) + Sum(Each(f.workers, Carried))
    && (o.queueBytes > 0 ==> Memory(f) <= o.queueBytes)
    && |f.queue| <= Depth(o)
    && (!f.started ==> AllExited(f.workers))
  }

  predicate OfHandler(a: Action) { a.Arrive? || a.Check? || a.Book? || a.Put? || a.GiveBack? }

  lemma HandlerLedger(f: Feed, o: Options, a: Action)
    requires LedgerInv(f, o) && Enabled(f, a) && OfHandler(a)
    ensures LedgerInv(Apply(f, o, a), o)
  {
    hide Sum, Each;
    var f' := Apply(f, o, a);
    EachUpdate(f.handlers, Counted, a.h, f'.handlers[a.h]);
    EachUpdate(f.handlers, Kept, a.h, f'.handlers[a.h]);
    KeptAtMostCounted(f'.handlers);
    if a.Put? {
      EachAppend(f.queue, Size, f.handlers[a.h].job);
    }
  }

  lemma WorkerLedger(f: Feed, o: Options, a: Action)
    requires LedgerInv(f, o) && Enabled(f, a) && !OfHandler(a)
    ensures LedgerInv(Apply(f, o, a), o)
  {
    var f' := Apply(f, o, a);
    if OfWorker(a) {
      hide Sum, Each;
      if a.Receive? {
        EachTail(f.queue, Size);
      }
      EachUpdate(f.workers, Carried, a.w, f'.workers[a.w]);
    } else if a.Start? {
      EachZeros(f.workers, Carried);
      EachZeros(f'.workers, Carried);
    }
  }

  lemma {:induction false} RunLedger(f: Feed, o: Options, run: seq<Action>)
    requires LedgerInv(f, o) && EnabledRun(f, o, run)
    ensures LedgerInv(Run(f, o, run), o)
    decreases run
  {
    if run == [] {
    } else {
      if OfHandler(run[0]) {
        HandlerLedger(f, o, run[0]);
      } else {
        WorkerLedger(f, o, run[0]);
      }
      RunLedger(Apply(f, o, run[0]), o, run[1..]);
    }
  }

  /** Under every interleaving the counter is exactly what is booked, queued or just
      taken, so it never goes negative; and what the feed keeps in memory for the queue
      is within both bounds, though the counter may pass its bound while a delivery
      is being shed. */
  lemma FeedLedger(o: Options, handlers: nat, run: seq<Action>)
    requires EnabledRun(Init(o, handlers), o, run)
    ensures var f := Run(Init(o, handlers), o, run);
            && f.queuedBytes == Sum(Each(f.queue, Size)) + Sum(Each(f.handlers, Counted)) + Sum(Each(f.workers, Carried))
            && (o.queueBytes > 0 ==> Sum(Each(f.queue, Size)) + Sum(Each(f.handlers, Kept)) + Sum(Each(f.workers, Carried)) <= o.queueBytes)
            && |f.queue| <= Depth(o)
  {
    var f := Init(o, handlers);
    EachZeros(f.handlers, Counted);
    EachZeros(f.handlers, Kept);
    EachZeros(f.workers, Carried);
    RunLedger(f, o, run);
  }
}
