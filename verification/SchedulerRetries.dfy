/** The dispatcher enqueues a request again when it cannot admit it, and the scheduler then knows it by its latest
    enqueue only. How far a request can be overtaken, counted from when it first came. */
module SchedulerRetries {
  import opened Sums
  import opened SchedulerModel
  import opened SchedulerRuns

  // -------------------------------------------------------------------- when the bound carries over

  lemma EntryIsOldOrNew(config: Config, f: Flat, e: Event, x: Queued)
    requires config.Valid() && WellFormed(f) && x in Next(config, f, e).waiting
    ensures x in f.waiting || (e.Enqueue? && x.request == e.request && x.enqueuedNs == e.now)
  {
    hide KeySet, SequencesIncrease, IdsDistinct, Score;
    if e.Pop? && f.waiting != [] {
      ChargedWellFormed(config, f, Choice(config, f, e.now));
    }
  }

  /** The event enqueues the request with this id at this time. */
  predicate Enqueues(e: Event, id: RequestId, now: nat) { e.Enqueue? && e.request.id == id && e.now == now }

  lemma {:induction false} EntryWasEnqueued(config: Config, f: Flat, es: seq<Event>, x: Queued)
    requires config.Valid() && WellFormed(f) && x in Run(config, f, es).waiting
    ensures x in f.waiting || exists i :: 0 <= i < |es| && Enqueues(es[i], x.request.id, x.enqueuedNs)
    decreases |es|
  {
    hide Next, WellFormed;
    if es != [] {
      EntryWasEnqueued(config, Next(config, f, es[0]), es[1..], x);
      if x in Next(config, f, es[0]).waiting {
        EntryIsOldOrNew(config, f, es[0], x);
        assert x !in f.waiting ==> Enqueues(es[0], x.request.id, x.enqueuedNs);
      } else {
        var i :| 0 <= i < |es[1..]| && Enqueues(es[1..][i], x.request.id, x.enqueuedNs);
        assert es[i + 1] == es[1..][i];
      }
    }
  }

  /** Every run: counted from its first enqueue, a request that is never enqueued again later than some delay after
      that is overtaken within the window and that delay; without retries, within the window. */
  lemma OvertakingSinceFirstEnqueue(config: Config, es: seq<Event>, now: nat, bound: real, x: Queued, y: Queued, first: nat, delay: nat)
    requires config.Valid() && bound >= 1.0
    requires ClockOrdered(0, es) && WeightsAtMost(es, bound)
    requires x in Run(config, EMPTY, es).waiting && y in Run(config, EMPTY, es).waiting
    requires y !in Next(config, Run(config, EMPTY, es), Pop(now)).waiting
    requires forall i :: 0 <= i < |es| && es[i].Enqueue? && es[i].request.id == x.request.id ==> es[i].now <= first + delay
    ensures (Earlier(now, y.enqueuedNs) - first) as real < OvertakeWindow(config, bound) + delay as real
  {
    hide Next, WellFormed, OvertakeWindow, WeightsAtMost, ClockOrdered, Run;
    BoundedOvertaking(config, es, now, bound, x, y);
    EmptyTimely(bound);
    EntryWasEnqueued(config, EMPTY, es, x);
    var i :| 0 <= i < |es| && Enqueues(es[i], x.request.id, x.enqueuedNs);
    assert es[i].now <= first + delay;
  }

  // ------------------------------------------------------------------------ and when it does not

  function Ask(r: Request, now: nat): Event { Enqueue(r, 0, 1, 1, 1, now) }

  function Held(r: Request, now: nat, sequence: nat): Queued { Queued(r, now, SaturatingAdd(now, r.deadline), 0, sequence) }

  lemma AsksAlone(config: Config, f: Flat, r: Request, now: nat)
    requires config.Valid() && WellFormed(f) && config.maxDepth > |f.waiting| && SumBytes(f.waiting) == 0 && r.id !in Ids(f.waiting)
    ensures Next(config, f, Ask(r, now)).waiting == f.waiting + [Held(r, now, f.sequence + 1)]
    ensures Next(config, f, Ask(r, now)).sequence == f.sequence + 1
  {
    hide WellFormed;
  }

  /** With a single key the earliest is taken. */
  lemma TakesTheEarliest(config: Config, f: Flat, now: nat)
    requires config.Valid() && WellFormed(f) && f.waiting != [] && forall i :: 0 <= i < |f.waiting| ==> f.waiting[i].Key() == f.waiting[0].Key()
    ensures Next(config, f, Pop(now)).waiting == f.waiting[1..] && Next(config, f, Pop(now)).sequence == f.sequence
  {
    hide KeySet, SequencesIncrease, IdsDistinct, Score;
    var i := Choice(config, f, now);
    ChargedWellFormed(config, f, i);
    assert i == 0;
    assert Remove(f.waiting, 0) == f.waiting[1..];
  }

  /** A request that came first, was tried and enqueued again `wait` later, waits while one of the same tenant that
      came just before the retry is taken. So counted from the first enqueue there is no bound at all. */
  lemma RetryRestartsAge(config: Config, x: Request, y: Request, wait: nat)
    requires config.Valid() && config.maxDepth >= 2 && x.id != y.id && x.Key() == y.Key()
    ensures WellFormed(EMPTY)
    ensures
      var f := Run(config, EMPTY, [Ask(x, 0), Pop(0), Ask(y, wait), Ask(x, wait)]);
      && Run(config, EMPTY, [Ask(x, 0)]).waiting == [Held(x, 0, 1)]
      && f.waiting == [Held(y, wait, 2), Held(x, wait, 3)]
      && Next(config, f, Pop(wait)).waiting == [Held(x, wait, 3)]
  {
    EmptyTimely(1.0);
    hide Next, WellFormed;
    var f1 := Next(config, EMPTY, Ask(x, 0));
    AsksAlone(config, EMPTY, x, 0);
    var f2 := Next(config, f1, Pop(0));
    TakesTheEarliest(config, f1, 0);
    var f3 := Next(config, f2, Ask(y, wait));
    AsksAlone(config, f2, y, wait);
    assert f3.waiting == [Held(y, wait, 2)];
    var f4 := Next(config, f3, Ask(x, wait));
    AsksAlone(config, f3, x, wait);
    assert f4.waiting == [Held(y, wait, 2), Held(x, wait, 3)];
    TakesTheEarliest(config, f4, wait);
    FourEvents(config, Ask(x, 0), Pop(0), Ask(y, wait), Ask(x, wait));
  }

  lemma FourEvents(config: Config, a: Event, b: Event, c: Event, d: Event)
    requires config.Valid() && WellFormed(EMPTY)
    ensures Run(config, EMPTY, [a]) == Next(config, EMPTY, a)
    ensures Run(config, EMPTY, [a, b, c, d]) == Next(config, Next(config, Next(config, Next(config, EMPTY, a), b), c), d)
  {
    hide Next, WellFormed;
    var f1 := Next(config, EMPTY, a);
    var f2 := Next(config, f1, b);
    var f3 := Next(config, f2, c);
    assert [a][1..] == [] && [a, b, c, d][1..] == [b, c, d] && [b, c, d][1..] == [c, d] && [c, d][1..] == [d] && [d][1..] == [];
    assert Run(config, f3, [d]) == Next(config, f3, d);
    assert Run(config, f2, [c, d]) == Run(config, f3, [d]);
    assert Run(config, f1, [b, c, d]) == Run(config, f2, [c, d]);
  }
}
