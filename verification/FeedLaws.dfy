/**
  What the engine queue of feed/feed.go does with one delivery and with one object, and that
  every delivery is answered once.
*/
module FeedLaws {
  import opened Sums
  import opened FeedDrain

  /** There is room for an object, by count (256 by default) and by bytes. */
  predicate Roomy(f: Feed, o: Options, job: Job)
  {
    && |f.queue| < (if o.queueDepth <= 0 then 256 else o.queueDepth)
    && (o.queueBytes <= 0 || f.queuedBytes + job.size <= o.queueBytes)
  }

  lemma Nil(f: Feed, o: Options)
    ensures EnabledRun(f, o, []) && Run(f, o, []) == f
  {
  }

  /** A delivery that finds the workers started and room is queued, and only that. */
  lemma Accepts(f: Feed, o: Options, h: nat, job: Job)
    requires h < |f.handlers| && f.handlers[h].Away? && f.started && Roomy(f, o, job)
    ensures var run := [Arrive(h, job), Check(h), Book(h), Put(h)];
            && EnabledRun(f, o, run)
            && Run(f, o, run) == f.(queue := f.queue + [job], accepted := f.accepted + [job],
                                    queuedBytes := f.queuedBytes + job.size)
  {
    hide Run, EnabledRun;
    var f1 := Apply(f, o, Arrive(h, job));
    var f2 := Apply(f1, o, Check(h));
    var f3 := Apply(f2, o, Book(h));
    var f4 := Apply(f3, o, Put(h));
    assert f4.handlers == f.handlers;
    Nil(f4, o);
    RunsTo(f3, o, Put(h), [], f4);
    RunsTo(f2, o, Book(h), [Put(h)] + [], f4);
    RunsTo(f1, o, Check(h), [Book(h)] + ([Put(h)] + []), f4);
    RunsTo(f, o, Arrive(h, job), [Check(h)] + ([Book(h)] + ([Put(h)] + [])), f4);
    assert [Arrive(h, job), Check(h), Book(h), Put(h)] == [Arrive(h, job)] + ([Check(h)] + ([Book(h)] + ([Put(h)] + [])));
  }

  /** One that finds the workers not started is shed, and changes nothing else. */
  lemma ShedsUntilStarted(f: Feed, o: Options, h: nat, job: Job)
    requires h < |f.handlers| && f.handlers[h].Away? && !f.started
    ensures var run := [Arrive(h, job), Check(h)];
            EnabledRun(f, o, run) && Run(f, o, run) == f.(shed := f.shed + 1)
  {
    hide Run, EnabledRun;
    var f1 := Apply(f, o, Arrive(h, job));
    var f2 := Apply(f1, o, Check(h));
    assert f2.handlers == f.handlers;
    Nil(f2, o);
    RunsTo(f1, o, Check(h), [], f2);
    RunsTo(f, o, Arrive(h, job), [Check(h)] + [], f2);
    assert [Arrive(h, job), Check(h)] == [Arrive(h, job)] + ([Check(h)] + []);
  }

  /** One that finds no room is shed, and changes nothing else. */
  lemma ShedsWithoutRoom(f: Feed, o: Options, h: nat, job: Job) returns (run: seq<Action>)
    requires h < |f.handlers| && f.handlers[h].Away? && f.started && !Roomy(f, o, job)
    ensures EnabledRun(f, o, run) && Run(f, o, run) == f.(shed := f.shed + 1)
  {
    hide Run, EnabledRun;
    var f1 := Apply(f, o, Arrive(h, job));
    var f2 := Apply(f1, o, Check(h));
    var f3 := Apply(f2, o, Book(h));
    var rest: seq<Action> := [];
    if f3.handlers[h].Refused? {
      rest := GivesBack(f, f3, o, h);
    } else {
      var f4 := Apply(f3, o, Put(h));
      rest := GivesBack(f, f4, o, h);
      RunsTo(f3, o, Put(h), rest, f.(shed := f.shed + 1));
      rest := [Put(h)] + rest;
    }
    RunsTo(f2, o, Book(h), rest, f.(shed := f.shed + 1));
    RunsTo(f1, o, Check(h), [Book(h)] + rest, f.(shed := f.shed + 1));
    RunsTo(f, o, Arrive(h, job), [Check(h)] + ([Book(h)] + rest), f.(shed := f.shed + 1));
    run := [Arrive(h, job)] + ([Check(h)] + ([Book(h)] + rest));
  }

  /** The bytes booked are given back. */
  lemma GivesBack(f: Feed, g: Feed, o: Options, h: nat) returns (run: seq<Action>)
    requires h < |f.handlers| && f.handlers[h].Away? && h < |g.handlers| && g.handlers[h].Refused?
    requires g.handlers[h := Away] == f.handlers
    requires g.(handlers := f.handlers, queuedBytes := f.queuedBytes) == f
    requires g.queuedBytes == f.queuedBytes + g.handlers[h].job.size
    ensures EnabledRun(g, o, run) && Run(g, o, run) == f.(shed := f.shed + 1)
  {
    hide Run, EnabledRun;
    var f' := Apply(g, o, GiveBack(h));
    Nil(f', o);
    RunsTo(g, o, GiveBack(h), [], f');
    run := [GiveBack(h)] + [];
  }

  /** A free worker takes the oldest object, gives back its bytes, submits it to its end and
      is free again. */
  lemma Serves(f: Feed, o: Options, w: nat)
    requires w < |f.workers| && f.queue != [] && (f.workers[w].Waiting? || f.workers[w].Draining?)
    ensures var run := [Receive(w), Uncount(w), Finish(w)];
            var job := f.queue[0];
            && EnabledRun(f, o, run)
            && Run(f, o, run) == f.(queue := f.queue[1..], taken := f.taken + [job], done := f.done + multiset{job},
                                    queuedBytes := f.queuedBytes - job.size)
  {
    hide Run, EnabledRun;
    var f1 := Apply(f, o, Receive(w));
    var f2 := Apply(f1, o, Uncount(w));
    var f3 := Apply(f2, o, Finish(w));
    assert f3.workers == f.workers;
    Nil(f3, o);
    RunsTo(f2, o, Finish(w), [], f3);
    RunsTo(f1, o, Uncount(w), [Finish(w)] + [], f3);
    RunsTo(f, o, Receive(w), [Uncount(w)] + ([Finish(w)] + []), f3);
    assert [Receive(w), Uncount(w), Finish(w)] == [Receive(w)] + ([Uncount(w)] + ([Finish(w)] + []));
  }

  // ---------------------------------------------------------- each delivery is answered

  function Arrivals(run: seq<Action>): nat
  {
    if run == [] then 0 else (if run[0].Arrive? then 1 else 0) + Arrivals(run[1..])
  }

  /** One for each handler with a delivery in hand. */
  function Busy(h: Handler): nat { if h.Away? then 0 else 1 }

  /** What deliveries have come to. */
  function Answered(f: Feed): nat
  {
    |f.accepted| + f.shed + Sum(Each(f.handlers, Busy))
  }

  lemma StepAnswers(f: Feed, o: Options, a: Action)
    requires Enabled(f, a)
    ensures Answered(Apply(f, o, a)) == Answered(f) + (if a.Arrive? then 1 else 0)
  {
    hide Sum, Each;
    if OfHandler(a) {
      EachUpdate(f.handlers, Busy, a.h, Apply(f, o, a).handlers[a.h]);
    }
  }

  lemma {:induction false} RunAnswers(f: Feed, o: Options, run: seq<Action>)
    requires EnabledRun(f, o, run)
    ensures Answered(Run(f, o, run)) == Answered(f) + Arrivals(run)
    decreases run
  {
    hide Apply, Enabled, Answered;
    if run == [] {
    } else {
      StepAnswers(f, o, run[0]);
      RunAnswers(Apply(f, o, run[0]), o, run[1..]);
    }
  }

  /** Over every run each delivery is accepted, shed, or still in its handler's hands, and
      only one of these. */
  lemma EachAnsweredOnce(o: Options, handlers: nat, run: seq<Action>)
    requires EnabledRun(Init(o, handlers), o, run)
    ensures var f := Run(Init(o, handlers), o, run);
            Arrivals(run) == |f.accepted| + f.shed + Sum(Each(f.handlers, Busy))
  {
    EachZeros(Init(o, handlers).handlers, Busy);
    RunAnswers(Init(o, handlers), o, run);
  }
}
