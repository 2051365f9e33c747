/** How backlogged queues share service over whole runs. Renormalising takes the same amount off every queue,
    so what two queues were served per weight differs by exactly the difference of their `served` amounts. Those
    stay bounded while all occupied queues compete alike, and then service goes by weight; they grow without
    limit beside a queue that waits unserved, and then it goes by the squares of the weights. */
module SchedulerLongRun {
  import opened Sums
  import opened SchedulerModel
  import opened SchedulerRuns
  import opened SchedulerShares

  /** Work per weight. */
  function Per(work: real, weight: real): real
    requires weight >= 1.0
  {
    work / weight
  }

  // ---------------------------------------------------------------------------------- one event

  /** An event adds to the served amount of a queue what it serves per weight, less what it takes off all. */
  lemma ServedStep(config: Config, f: Flat, e: Event, k: QueueKey)
    requires config.Valid() && WellFormed(f) && k in f.credit && k in Next(config, f, e).credit
    ensures
      var c, c' := f.credit[k], Next(config, f, e).credit[k];
      && c.Valid() && c'.weight == c.weight
      && c'.served == c.served + Per(WorkServed(config, f, e, k), c.weight) - TakenOff(config, f, e)
  {
    hide Next, TakenOff, WorkServed, ServedKey, KeySet, SequencesIncrease, IdsDistinct;
    ChargedCredit(config, f, e, k);
    NotServed(config, f, e, k);
  }

  ghost predicate OccupiedThroughout(config: Config, f: Flat, es: seq<Event>, k: QueueKey)
    requires config.Valid() && WellFormed(f)
    decreases |es|
  {
    k in f.credit && (es != [] ==> OccupiedThroughout(config, Next(config, f, es[0]), es[1..], k))
  }

  lemma {:induction false} OccupiedAtEnd(config: Config, f: Flat, es: seq<Event>, k: QueueKey)
    requires config.Valid() && WellFormed(f) && OccupiedThroughout(config, f, es, k)
    ensures k in f.credit && k in Run(config, f, es).credit && f.credit[k].Valid() && Run(config, f, es).credit[k].weight == f.credit[k].weight
    decreases |es|
  {
    hide Next, KeySet, SequencesIncrease, IdsDistinct;
    if es != [] {
      ServedAgain(config, f, es, k);
      ServedStep(config, f, es[0], k);
      OccupiedAtEnd(config, Next(config, f, es[0]), es[1..], k);
    }
  }

  lemma ServedAgain(config: Config, f: Flat, es: seq<Event>, k: QueueKey)
    requires config.Valid() && WellFormed(f) && OccupiedThroughout(config, f, es, k) && es != []
    ensures k in Next(config, f, es[0]).credit
  {
    hide Next, KeySet, SequencesIncrease, IdsDistinct;
    assert OccupiedThroughout(config, Next(config, f, es[0]), es[1..], k);
  }

  lemma PerAdds(u: real, v: real, w: real)
    requires w >= 1.0
    ensures Per(u + v, w) == Per(u, w) + Per(v, w) && Per(0.0, w) == 0.0
  {
  }

  /** Over every run in which a queue stays occupied, its served amount grows by the work popped from it per
      weight, less what renormalisation takes off. */
  lemma {:induction false} ServedOverRun(config: Config, f: Flat, es: seq<Event>, k: QueueKey)
    requires config.Valid() && WellFormed(f) && OccupiedThroughout(config, f, es, k)
    ensures
      && k in f.credit && k in Run(config, f, es).credit && f.credit[k].weight >= 1.0
      && Run(config, f, es).credit[k].served ==
         f.credit[k].served + Per(TotalWork(config, f, es, k), f.credit[k].weight) - TotalTaken(config, f, es)
    decreases |es|
  {
    hide Next, TakenOff, WorkServed, KeySet, SequencesIncrease, IdsDistinct, Per;
    OccupiedAtEnd(config, f, es, k);
    var w := f.credit[k].weight;
    if es == [] {
      PerAdds(0.0, 0.0, w);
    } else {
      var f' := Next(config, f, es[0]);
      var now, later := WorkServed(config, f, es[0], k), TotalWork(config, f', es[1..], k);
      assert Run(config, f, es) == Run(config, f', es[1..]);
      assert TotalWork(config, f, es, k) == now + later;
      assert TotalTaken(config, f, es) == TakenOff(config, f, es[0]) + TotalTaken(config, f', es[1..]);
      ServedAgain(config, f, es, k);
      hide Run, TotalWork, TotalTaken, WellFormed;
      ServedStep(config, f, es[0], k);
      ServedOverRun(config, f', es[1..], k);
      PerAdds(now, later, w);
    }
  }

  /** Work popped from one queue per weight, less work popped from another per weight. */
  ghost function Deviation(config: Config, f: Flat, es: seq<Event>, a: QueueKey, b: QueueKey): real
    requires config.Valid() && WellFormed(f) && a in f.credit && b in f.credit
  {
    assert f.credit[a].Valid() && f.credit[b].Valid();
    Per(TotalWork(config, f, es, a), f.credit[a].weight) - Per(TotalWork(config, f, es, b), f.credit[b].weight)
  }

  /** How far the served amount of one queue is above that of another. */
  ghost function Gap(f: Flat, a: QueueKey, b: QueueKey): real
    requires a in f.credit && b in f.credit
  {
    f.credit[a].served - f.credit[b].served
  }

  /** Every run, whatever other queues do and however often `served` is renormalised: two queues that stay
      occupied deviate from sharing by weight by exactly what the gap of their served amounts has grown. */
  lemma DeviationIsGap(config: Config, f: Flat, es: seq<Event>, a: QueueKey, b: QueueKey)
    requires config.Valid() && WellFormed(f) && OccupiedThroughout(config, f, es, a) && OccupiedThroughout(config, f, es, b)
    ensures a in Run(config, f, es).credit && b in Run(config, f, es).credit
    ensures Deviation(config, f, es, a, b) == Gap(Run(config, f, es), a, b) - Gap(f, a, b)
  {
    hide Run, TotalWork, TotalTaken, Per, KeySet, SequencesIncrease, IdsDistinct;
    ServedOverRun(config, f, es, a);
    ServedOverRun(config, f, es, b);
  }

  // ------------------------------------------------------------------------- two competing queues

  lemma {:induction false} TwinsOccupy(config: Config, f: Flat, es: seq<Event>, a: QueueKey, b: QueueKey, enqueuedNs: nat, deadlineNs: nat,
                                       largest: real)
    requires config.Valid() && WellFormed(f) && TwinsThroughout(config, f, es, a, b, enqueuedNs, deadlineNs, largest)
    ensures OccupiedThroughout(config, f, es, a) && OccupiedThroughout(config, f, es, b)
    decreases |es|
  {
    hide Next, KeySet, SequencesIncrease, IdsDistinct;
    if es != [] {
      TwinsOccupy(config, Next(config, f, es[0]), es[1..], a, b, enqueuedNs, deadlineNs, largest);
    }
  }

  lemma TwinsNext(config: Config, f: Flat, es: seq<Event>, a: QueueKey, b: QueueKey, enqueuedNs: nat, deadlineNs: nat, largest: real)
    requires config.Valid() && WellFormed(f) && TwinsThroughout(config, f, es, a, b, enqueuedNs, deadlineNs, largest)
    ensures Twins(f, a, b, enqueuedNs, deadlineNs, largest) && a in f.credit && b in f.credit && f.credit[a].Valid() && f.credit[b].Valid()
    ensures es != [] ==>
              && TwinsThroughout(config, Next(config, f, es[0]), es[1..], a, b, enqueuedNs, deadlineNs, largest)
              && a in Next(config, f, es[0]).credit && b in Next(config, f, es[0]).credit
  {
    hide Next, KeySet, SequencesIncrease, IdsDistinct;
  }

  lemma TimesSign(x: real, y: real)
    requires x >= 0.0
    ensures y >= 0.0 ==> Times(x, y) >= 0.0
    ensures y <= 0.0 ==> Times(x, y) <= 0.0
  {
  }

  /** The heavier of two queues never falls further behind than one request of the lighter puts it:
      renormalising only brings it forward. */
  lemma {:induction false} HeavierKeepsUp(config: Config, f: Flat, es: seq<Event>, a: QueueKey, b: QueueKey, enqueuedNs: nat, deadlineNs: nat,
                                          largest: real, lo: real)
    requires config.Valid() && WellFormed(f) && a != b && TwinsThroughout(config, f, es, a, b, enqueuedNs, deadlineNs, largest)
    requires f.credit[a].weight >= f.credit[b].weight >= 1.0
    requires lo <= Ahead(config, f.credit[a], f.credit[b]) && lo <= -Pull(largest, f.credit[b].weight, f.credit[a].weight)
    ensures a in Run(config, f, es).credit && b in Run(config, f, es).credit
    ensures lo <= Ahead(config, Run(config, f, es).credit[a], Run(config, f, es).credit[b])
    decreases |es|
  {
    hide Ahead, Pull, Times, Next, TakenOff, WorkServed, KeySet, SequencesIncrease, IdsDistinct;
    if es != [] {
      var e, f', wa, wb := es[0], Next(config, f, es[0]), f.credit[a].weight, f.credit[b].weight;
      TwinsNext(config, f, es, a, b, enqueuedNs, deadlineNs, largest);
      assert Run(config, f, es) == Run(config, f', es[1..]);
      hide Run, TwinsThroughout, Twins, WellFormed;
      AheadStep(config, f, e, a, b);
      var hi := Max(Ahead(config, f.credit[a], f.credit[b]), Pull(largest, wa, wb));
      ServingStaysBounded(config, f, e, a, b, enqueuedNs, deadlineNs, largest, lo, hi);
      TimesSign(TakenOff(config, f, e), wb - wa);
      HeavierKeepsUp(config, f', es[1..], a, b, enqueuedNs, deadlineNs, largest, lo);
    }
  }

  /** The largest served amount that a queue has in a run. */
  ghost function PeakServed(config: Config, f: Flat, es: seq<Event>, k: QueueKey): real
    requires config.Valid() && WellFormed(f) && OccupiedThroughout(config, f, es, k)
    decreases |es|
  {
    if es == [] then f.credit[k].served
    else Max(f.credit[k].served, PeakServed(config, Next(config, f, es[0]), es[1..], k))
  }

  lemma GapInWork(config: Config, a: Credit, b: Credit)
    ensures Times(b.weight, a.served - b.served) == Ahead(config, a, b) + Times(a.weight - b.weight, b.served + config.quantum)
  {
    var q := config.quantum;
    assert b.weight * (a.served + q) == b.weight * a.served + b.weight * q;
    assert a.weight * (b.served + q) - b.weight * (b.served + q) == (a.weight - b.weight) * (b.served + q);
    assert b.weight * (b.served + q) == b.weight * b.served + b.weight * q;
    assert b.weight * (a.served - b.served) == b.weight * a.served - b.weight * b.served;
  }

  lemma TimesGrows(x: real, y: real, z: real)
    requires x >= 0.0 && y <= z
    ensures Times(x, y) <= Times(x, z)
  {
    assert x * (z - y) >= 0.0;
  }

  lemma PerIsPull(u: real, mine: real, other: real)
    requires mine >= 1.0
    ensures Times(other, Per(u, mine)) == Pull(u, mine, other)
  {
  }

  lemma TimesSplits(w: real, x: real, y: real, z: real)
    ensures Times(w, x + y - z) == Times(w, x) + Times(w, y) - Times(w, z)
  {
  }

  lemma PerIsWork(u: real, w: real)
    requires w >= 1.0
    ensures Times(w, Per(u, w)) == u
  {
  }

  /** A step keeps the gap, in work of the lighter queue, within what the peak of the lighter queue allows. */
  lemma GapStep(config: Config, f: Flat, e: Event, a: QueueKey, b: QueueKey, enqueuedNs: nat, deadlineNs: nat, largest: real, peak: real,
                top: real)
    requires config.Valid() && WellFormed(f) && a != b && Twins(f, a, b, enqueuedNs, deadlineNs, largest)
    requires a in Next(config, f, e).credit && b in Next(config, f, e).credit
    requires f.credit[a].weight >= f.credit[b].weight >= 1.0 && f.credit[b].served <= peak
    requires Times(f.credit[b].weight, Gap(f, a, b)) <= top
    requires
      Times(f.credit[a].weight - f.credit[b].weight, peak + config.quantum) + Pull(largest, f.credit[a].weight, f.credit[b].weight) <= top
    ensures Times(f.credit[b].weight, Gap(Next(config, f, e), a, b)) <= top
  {
    hide *;
    TwinsOccupyNow(f, a, b, enqueuedNs, deadlineNs, largest);
    var wa, wb, ua, ub := f.credit[a].weight, f.credit[b].weight, WorkServed(config, f, e, a), WorkServed(config, f, e, b);
    GapNext(config, f, e, a, b);
    NotServed(config, f, e, a);
    WorkIsPositive(config, f, e, b);
    TimesSplits(wb, Gap(f, a, b), Per(ua, wa), Per(ub, wb));
    PerIsPull(ua, wa, wb);
    PerIsWork(ub, wb);
    PullAdds(0.0, 0.0, wa, wb);
    if ServedKey(config, f, e) == Some(a) {
      ServedFromBehind(config, f, e, a, b, enqueuedNs, deadlineNs, largest, peak);
    }
  }

  lemma TwinsOccupyNow(f: Flat, a: QueueKey, b: QueueKey, enqueuedNs: nat, deadlineNs: nat, largest: real)
    requires Twins(f, a, b, enqueuedNs, deadlineNs, largest)
    ensures a in f.credit && b in f.credit
  {
  }

  lemma GapNext(config: Config, f: Flat, e: Event, a: QueueKey, b: QueueKey)
    requires config.Valid() && WellFormed(f) && a in f.credit && b in f.credit && a in Next(config, f, e).credit && b in Next(config, f, e).credit
    ensures f.credit[a].weight >= 1.0 && f.credit[b].weight >= 1.0
    ensures Gap(Next(config, f, e), a, b) ==
            Gap(f, a, b) + Per(WorkServed(config, f, e, a), f.credit[a].weight) - Per(WorkServed(config, f, e, b), f.credit[b].weight)
  {
    hide Next, TakenOff, WorkServed, Per, KeySet, SequencesIncrease, IdsDistinct;
    ServedStep(config, f, e, a);
    ServedStep(config, f, e, b);
  }

  /** A pop serves the heavier queue only while it is not ahead. */
  lemma ServedFromBehind(config: Config, f: Flat, e: Event, a: QueueKey, b: QueueKey, enqueuedNs: nat, deadlineNs: nat, largest: real, peak: real)
    requires config.Valid() && WellFormed(f) && a != b && Twins(f, a, b, enqueuedNs, deadlineNs, largest)
    requires a in f.credit && b in f.credit && f.credit[a].weight >= f.credit[b].weight >= 1.0 && f.credit[b].served <= peak
    requires ServedKey(config, f, e) == Some(a)
    ensures Times(f.credit[b].weight, Gap(f, a, b)) <= Times(f.credit[a].weight - f.credit[b].weight, peak + config.quantum)
    ensures Pull(WorkServed(config, f, e, a), f.credit[a].weight, f.credit[b].weight) <= Pull(largest, f.credit[a].weight, f.credit[b].weight)
  {
    hide Ahead, Pull, Times, WorkServed, ServedKey, Twins, KeySet, SequencesIncrease, IdsDistinct;
    ServedOnlyByPop(config, f, e);
    ServesTheOneNotAhead(config, f, e.now, a, b, enqueuedNs, deadlineNs, largest);
    PullGrows(WorkServed(config, f, e, a), largest, f.credit[a].weight, f.credit[b].weight);
    GapInWork(config, f.credit[a], f.credit[b]);
    TimesGrows(f.credit[a].weight - f.credit[b].weight, f.credit[b].served + config.quantum, peak + config.quantum);
  }

  lemma WorkIsPositive(config: Config, f: Flat, e: Event, k: QueueKey)
    requires config.Valid() && WellFormed(f)
    ensures WorkServed(config, f, e, k) >= 0.0
  {
  }

  lemma ServedOnlyByPop(config: Config, f: Flat, e: Event)
    requires config.Valid() && WellFormed(f) && ServedKey(config, f, e).Some?
    ensures e.Pop?
  {
  }

  lemma {:induction false} GapBelowPeak(config: Config, f: Flat, es: seq<Event>, a: QueueKey, b: QueueKey, enqueuedNs: nat, deadlineNs: nat,
                                        largest: real, peak: real, top: real)
    requires config.Valid() && WellFormed(f) && a != b && TwinsThroughout(config, f, es, a, b, enqueuedNs, deadlineNs, largest)
    requires OccupiedThroughout(config, f, es, b) && PeakServed(config, f, es, b) <= peak
    requires f.credit[a].weight >= f.credit[b].weight >= 1.0 && Times(f.credit[b].weight, Gap(f, a, b)) <= top
    requires
      Times(f.credit[a].weight - f.credit[b].weight, peak + config.quantum) + Pull(largest, f.credit[a].weight, f.credit[b].weight) <= top
    ensures a in Run(config, f, es).credit && b in Run(config, f, es).credit
    ensures Times(f.credit[b].weight, Gap(Run(config, f, es), a, b)) <= top
    decreases |es|
  {
    hide Ahead, Pull, Times, Per, Next, TakenOff, WorkServed, KeySet, SequencesIncrease, IdsDistinct;
    TwinsNext(config, f, es, a, b, enqueuedNs, deadlineNs, largest);
    if es != [] {
      var f' := Next(config, f, es[0]);
      assert Run(config, f, es) == Run(config, f', es[1..]);
      assert f.credit[b].served <= peak && PeakServed(config, f', es[1..], b) <= peak;
      hide Run, TwinsThroughout, Twins, WellFormed, PeakServed;
      ServedStep(config, f, es[0], a);
      ServedStep(config, f, es[0], b);
      GapStep(config, f, es[0], a, b, enqueuedNs, deadlineNs, largest, peak, top);
      GapBelowPeak(config, f', es[1..], a, b, enqueuedNs, deadlineNs, largest, peak, top);
    }
  }

  /** Two queues that start empty and fill up before either is served. */
  ghost predicate FillUp(config: Config, f: Flat, filling: seq<Event>, a: QueueKey, b: QueueKey)
    requires config.Valid() && WellFormed(f)
  {
    a != b && a !in f.credit && b !in f.credit && NeverServed(config, f, filling, a) && NeverServed(config, f, filling, b)
  }

  lemma FilledLevel(config: Config, f: Flat, filling: seq<Event>, a: QueueKey, b: QueueKey)
    requires config.Valid() && WellFormed(f) && FillUp(config, f, filling, a, b)
    requires a in Run(config, f, filling).credit && b in Run(config, f, filling).credit
    ensures Run(config, f, filling).credit[a].served == 0.0 == Run(config, f, filling).credit[b].served
  {
    hide NeverServed, Run, KeySet, SequencesIncrease, IdsDistinct;
    UnservedRun(config, f, filling, a);
    UnservedRun(config, f, filling, b);
  }

  /** In work of `b`, the deviation from sharing by weight is the difference of the weights times a served amount
      of `b`, up to a constant: at least that at the end and at most the largest on the way. */
  ghost predicate FollowsServed(config: Config, start: Flat, serving: seq<Event>, a: QueueKey, b: QueueKey, largest: real)
    requires config.Valid() && WellFormed(start)
  {
    && OccupiedThroughout(config, start, serving, a) && OccupiedThroughout(config, start, serving, b)
    && var end, wa, wb, q := Run(config, start, serving), start.credit[a].weight, start.credit[b].weight, config.quantum;
    && wa >= 1.0 && wb >= 1.0 && b in end.credit
    && Times(wb, Deviation(config, start, serving, a, b)) >=
       Times(wa - wb, end.credit[b].served + q) - Max(Times(q, wa - wb), Pull(largest, wb, wa))
    && Times(wb, Deviation(config, start, serving, a, b)) <=
       Times(wa - wb, PeakServed(config, start, serving, b) + q) + Pull(largest, wa, wb)
  }

  /** Every run of two competing queues, whatever other queues do: the heavier exceeds its share by weight just
      as far as the lighter one's served amount goes. So they share by weight up to a constant exactly as long
      as that amount stays bounded, or when the weights are equal. */
  lemma ShareFollowsServed(config: Config, f: Flat, filling: seq<Event>, serving: seq<Event>, a: QueueKey, b: QueueKey,
                           enqueuedNs: nat, deadlineNs: nat, largest: real)
    requires config.Valid() && WellFormed(f) && FillUp(config, f, filling, a, b) && largest >= 0.0
    requires TwinsThroughout(config, Run(config, f, filling), serving, a, b, enqueuedNs, deadlineNs, largest)
    requires Run(config, f, filling).credit[a].weight >= Run(config, f, filling).credit[b].weight
    ensures FollowsServed(config, Run(config, f, filling), serving, a, b, largest)
  {
    var start := Run(config, f, filling);
    TwinsNext(config, start, serving, a, b, enqueuedNs, deadlineNs, largest);
    assert a != b;
    hide FillUp, TwinsThroughout, Twins, Run, Next, KeySet, SequencesIncrease, IdsDistinct, NeverServed, FollowsServed, WellFormed;
    FilledLevel(config, f, filling, a, b);
    LevelFollowsServed(config, start, serving, a, b, enqueuedNs, deadlineNs, largest);
  }

  lemma LevelFollowsServed(config: Config, start: Flat, serving: seq<Event>, a: QueueKey, b: QueueKey, enqueuedNs: nat, deadlineNs: nat,
                           largest: real)
    requires config.Valid() && WellFormed(start) && a != b && largest >= 0.0
    requires TwinsThroughout(config, start, serving, a, b, enqueuedNs, deadlineNs, largest)
    requires start.credit[a].weight >= start.credit[b].weight >= 1.0 && start.credit[a].served == 0.0 == start.credit[b].served
    ensures FollowsServed(config, start, serving, a, b, largest)
  {
    hide TwinsThroughout, Run, Next, KeySet, SequencesIncrease, IdsDistinct, PeakServed, OccupiedThroughout, Ahead, Pull, Times, Deviation, WellFormed;
    TwinsOccupy(config, start, serving, a, b, enqueuedNs, deadlineNs, largest);
    PeakAtLeastStart(config, start, serving, b);
    ShareBounds(config, start, serving, a, b, enqueuedNs, deadlineNs, largest, PeakServed(config, start, serving, b));
  }

  lemma PeakAtLeastStart(config: Config, f: Flat, es: seq<Event>, k: QueueKey)
    requires config.Valid() && WellFormed(f) && OccupiedThroughout(config, f, es, k)
    ensures f.credit[k].served <= PeakServed(config, f, es, k)
  {
    hide Next, KeySet, SequencesIncrease, IdsDistinct;
  }

  lemma ShareBounds(config: Config, start: Flat, serving: seq<Event>, a: QueueKey, b: QueueKey,
                    enqueuedNs: nat, deadlineNs: nat, largest: real, peak: real)
    requires config.Valid() && WellFormed(start) && a != b && largest >= 0.0 && peak >= 0.0
    requires TwinsThroughout(config, start, serving, a, b, enqueuedNs, deadlineNs, largest)
    requires OccupiedThroughout(config, start, serving, a) && OccupiedThroughout(config, start, serving, b)
    requires PeakServed(config, start, serving, b) <= peak
    requires start.credit[a].weight >= start.credit[b].weight >= 1.0 && start.credit[a].served == 0.0 == start.credit[b].served
    ensures b in Run(config, start, serving).credit
    ensures
      var end, wa, wb, q := Run(config, start, serving), start.credit[a].weight, start.credit[b].weight, config.quantum;
      && Times(wb, Deviation(config, start, serving, a, b)) >=
         Times(wa - wb, end.credit[b].served + q) - Max(Times(q, wa - wb), Pull(largest, wb, wa))
      && Times(wb, Deviation(config, start, serving, a, b)) <= Times(wa - wb, peak + q) + Pull(largest, wa, wb)
  {
    hide TwinsThroughout, Run, Next, KeySet, SequencesIncrease, IdsDistinct, PeakServed, OccupiedThroughout, Ahead, Pull, Times, Deviation, WellFormed;
    OccupiedAtEnd(config, start, serving, a);
    OccupiedAtEnd(config, start, serving, b);
    var end, wa, wb, q := Run(config, start, serving), start.credit[a].weight, start.credit[b].weight, config.quantum;
    DeviationIsGap(config, start, serving, a, b);
    SchedulerShares.StartsLevel(config, start.credit[a], start.credit[b]);
    TimesFacts(wa, wb, q);
    HeavierKeepsUp(config, start, serving, a, b, enqueuedNs, deadlineNs, largest, Min(Times(q, wb - wa), -Pull(largest, wb, wa)));
    GapInWork(config, end.credit[a], end.credit[b]);
    TimesSign(wa - wb, peak + q);
    PullGrows(0.0, largest, wa, wb);
    TimesSign(wb, 0.0);
    GapBelowPeak(config, start, serving, a, b, enqueuedNs, deadlineNs, largest, peak, Times(wa - wb, peak + q) + Pull(largest, wa, wb));
  }

  lemma {:induction false} PeakIsReached(config: Config, f: Flat, es: seq<Event>, k: QueueKey) returns (n: nat)
    requires config.Valid() && WellFormed(f) && OccupiedThroughout(config, f, es, k)
    ensures n <= |es| && k in Run(config, f, es[..n]).credit && Run(config, f, es[..n]).credit[k].served == PeakServed(config, f, es, k)
    decreases |es|
  {
    hide Next, KeySet, SequencesIncrease, IdsDistinct, WellFormed;
    n := 0;
    if es != [] {
      var f' := Next(config, f, es[0]);
      var rest := PeakIsReached(config, f', es[1..], k);
      if PeakServed(config, f', es[1..], k) > f.credit[k].served {
        n := rest + 1;
        assert es[..n][0] == es[0] && es[..n][1..] == es[1..][..rest];
      }
    }
  }

  lemma {:induction false} TwinsPrefix(config: Config, f: Flat, es: seq<Event>, n: nat, a: QueueKey, b: QueueKey, enqueuedNs: nat, deadlineNs: nat,
                                       largest: real)
    requires config.Valid() && WellFormed(f) && n <= |es| && TwinsThroughout(config, f, es, a, b, enqueuedNs, deadlineNs, largest)
    ensures TwinsThroughout(config, f, es[..n], a, b, enqueuedNs, deadlineNs, largest)
    decreases |es|
  {
    hide Next, KeySet, SequencesIncrease, IdsDistinct, WellFormed, Twins;
    if n > 0 {
      assert es[..n][0] == es[0] && es[..n][1..] == es[1..][..n - 1];
      TwinsPrefix(config, Next(config, f, es[0]), es[1..], n - 1, a, b, enqueuedNs, deadlineNs, largest);
    }
  }

  /** The bound by the largest served amount is met on the way, up to the same constant. */
  lemma DeviationReachesPeak(config: Config, f: Flat, filling: seq<Event>, serving: seq<Event>, a: QueueKey, b: QueueKey,
                             enqueuedNs: nat, deadlineNs: nat, largest: real) returns (n: nat)
    requires config.Valid() && WellFormed(f) && FillUp(config, f, filling, a, b) && largest >= 0.0
    requires TwinsThroughout(config, Run(config, f, filling), serving, a, b, enqueuedNs, deadlineNs, largest)
    requires Run(config, f, filling).credit[a].weight >= Run(config, f, filling).credit[b].weight
    ensures n <= |serving| && FollowsServed(config, Run(config, f, filling), serving[..n], a, b, largest)
    ensures OccupiedThroughout(config, Run(config, f, filling), serving, b)
    ensures b in Run(config, Run(config, f, filling), serving[..n]).credit
    ensures Run(config, Run(config, f, filling), serving[..n]).credit[b].served == PeakServed(config, Run(config, f, filling), serving, b)
  {
    var start := Run(config, f, filling);
    TwinsOccupy(config, start, serving, a, b, enqueuedNs, deadlineNs, largest);
    n := PeakIsReached(config, start, serving, b);
    TwinsPrefix(config, start, serving, n, a, b, enqueuedNs, deadlineNs, largest);
    ShareFollowsServed(config, f, filling, serving[..n], a, b, enqueuedNs, deadlineNs, largest);
  }

  // ------------------------------------------------------------------ all occupied queues compete

  /** The occupied queues are `keys`, and all requests have one enqueue time and one deadline. */
  ghost predicate AllTwins(f: Flat, keys: set<QueueKey>, enqueuedNs: nat, deadlineNs: nat, largest: real)
  {
    && f.credit.Keys == keys
    && forall i :: 0 <= i < |f.waiting| ==>
         && f.waiting[i].enqueuedNs == enqueuedNs && f.waiting[i].deadlineNs == deadlineNs
         && f.waiting[i].request.Work() <= largest
  }

  ghost predicate AllTwinsThroughout(config: Config, f: Flat, es: seq<Event>, keys: set<QueueKey>, enqueuedNs: nat, deadlineNs: nat,
                                     largest: real)
    requires config.Valid() && WellFormed(f)
    decreases |es|
  {
    && AllTwins(f, keys, enqueuedNs, deadlineNs, largest)
    && (es != [] ==> AllTwinsThroughout(config, Next(config, f, es[0]), es[1..], keys, enqueuedNs, deadlineNs, largest))
  }

  /** What a queue of some weight can have been served, when all weights are at least `least`. */
  function Ceiling(config: Config, weight: real, least: real, largest: real): real
    requires least >= 1.0
  {
    Pull(1001.0 * config.quantum, least, weight) + largest
  }

  /** One queue has been served at most a thousand quanta, and none more than its ceiling. */
  ghost predicate ServedBounded(config: Config, f: Flat, least: real, largest: real)
    requires least >= 1.0
  {
    && (exists k :: k in f.credit && f.credit[k].served <= 1000.0 * config.quantum)
    && forall k :: k in f.credit ==> f.credit[k].weight >= least && f.credit[k].served <= Ceiling(config, f.credit[k].weight, least, largest)
  }

  /** After a pop, or as before it, some queue has been served at most a thousand quanta. */
  lemma LeastStaysLow(config: Config, f: Flat, e: Event)
    requires config.Valid() && WellFormed(f) && Next(config, f, e).credit.Keys == f.credit.Keys
    requires exists k :: k in f.credit && f.credit[k].served <= 1000.0 * config.quantum
    ensures exists k :: k in Next(config, f, e).credit && Next(config, f, e).credit[k].served <= 1000.0 * config.quantum
  {
    hide Score, SequencesIncrease, IdsDistinct, KeySet, Charge;
    var f' := Next(config, f, e);
    if e.Pop? && f.waiting != [] {
      var i := Choice(config, f, e.now);
      KeyHasCredit(f, i);
      ChargedWellFormed(config, f, i);
      var charged := f.credit[f.waiting[i].Key() := Charge(f.credit[f.waiting[i].Key()], f.waiting[i].request.Work())];
      var k :| k in charged && charged[k].served == MinServed(charged);
      assert k in f'.credit && f'.credit[k] == Charged(config, f, i).credit[k];
    } else {
      var k :| k in f.credit && f.credit[k].served <= 1000.0 * config.quantum;
      assert f'.credit[k] == f.credit[k];
    }
  }

  /** A queue that is not ahead of one served at most a thousand quanta is below its ceiling by a request. */
  lemma NotAheadIsLow(config: Config, a: Credit, m: Credit, least: real)
    requires config.Valid() && a.Valid() && m.Valid() && m.weight >= least >= 1.0
    requires m.served <= 1000.0 * config.quantum && Ahead(config, a, m) <= 0.0
    ensures a.served <= Pull(1001.0 * config.quantum, least, a.weight)
  {
    var q, x := config.quantum, 1001.0 * config.quantum / least;
    assert least * x == 1001.0 * q;
    assert a.weight * (1001.0 * q - (m.served + q)) >= 0.0;
    assert m.weight * (a.served + q) <= a.weight * (1001.0 * q);
    assert (m.weight - least) * (a.served + q) >= 0.0;
    assert least * (a.served + q) <= a.weight * (least * x);
    assert least * (a.weight * x - (a.served + q)) >= 0.0;
  }

  lemma LowIsBelowPull(config: Config, c: Credit, least: real)
    requires config.Valid() && c.weight >= least >= 1.0 && c.served <= 1000.0 * config.quantum
    ensures c.served <= Pull(1001.0 * config.quantum, least, c.weight)
  {
    var q, x := config.quantum, 1001.0 * config.quantum / least;
    assert least * x == 1001.0 * q;
    assert x >= 0.0;
    assert (c.weight - least) * x >= 0.0;
  }

  lemma PerAtMost(u: real, w: real, largest: real)
    requires w >= 1.0 && 0.0 <= u <= largest
    ensures 0.0 <= Per(u, w) <= largest
  {
    var x := u / w;
    assert x * w == u;
    assert x >= 0.0;
    assert x * (w - 1.0) >= 0.0;
  }

  /** A queue about to be served has been served little enough. */
  lemma ServedFromLow(config: Config, f: Flat, e: Event, k: QueueKey, keys: set<QueueKey>, enqueuedNs: nat, deadlineNs: nat, largest: real,
                      least: real)
    requires config.Valid() && WellFormed(f) && AllTwins(f, keys, enqueuedNs, deadlineNs, largest) && least >= 1.0
    requires ServedBounded(config, f, least, largest) && ServedKey(config, f, e) == Some(k) && k in f.credit
    ensures f.credit[k].served <= Pull(1001.0 * config.quantum, least, f.credit[k].weight)
    ensures 0.0 <= WorkServed(config, f, e, k) <= largest
  {
    hide Pull, Ahead, Ceiling, KeySet, SequencesIncrease, IdsDistinct;
    ServedOnlyByPop(config, f, e);
    var m :| m in f.credit && f.credit[m].served <= 1000.0 * config.quantum;
    assert f.credit[k].Valid() && f.credit[m].Valid();
    if m == k {
      LowIsBelowPull(config, f.credit[k], least);
    } else {
      assert Twins(f, k, m, enqueuedNs, deadlineNs, largest);
      hide Twins, ServedKey, WorkServed;
      ServesTheOneNotAhead(config, f, e.now, k, m, enqueuedNs, deadlineNs, largest);
      NotAheadIsLow(config, f.credit[k], f.credit[m], least);
    }
  }

  lemma CeilingStep(config: Config, f: Flat, e: Event, k: QueueKey, keys: set<QueueKey>, enqueuedNs: nat, deadlineNs: nat, largest: real,
                    least: real)
    requires config.Valid() && WellFormed(f) && AllTwins(f, keys, enqueuedNs, deadlineNs, largest) && least >= 1.0 && largest >= 0.0
    requires ServedBounded(config, f, least, largest) && k in f.credit && k in Next(config, f, e).credit
    ensures Next(config, f, e).credit[k].weight == f.credit[k].weight >= least
    ensures Next(config, f, e).credit[k].served <= Ceiling(config, f.credit[k].weight, least, largest)
  {
    hide Next, TakenOff, WorkServed, ServedKey, Pull, Per, AllTwins, KeySet, SequencesIncrease, IdsDistinct;
    ServedStep(config, f, e, k);
    NotServed(config, f, e, k);
    PerAdds(0.0, 0.0, f.credit[k].weight);
    if ServedKey(config, f, e) == Some(k) {
      ServedFromLow(config, f, e, k, keys, enqueuedNs, deadlineNs, largest, least);
      PerAtMost(WorkServed(config, f, e, k), f.credit[k].weight, largest);
    }
  }

  lemma {:induction false} BoundedRun(config: Config, f: Flat, es: seq<Event>, keys: set<QueueKey>, enqueuedNs: nat, deadlineNs: nat,
                                      largest: real, least: real)
    requires config.Valid() && WellFormed(f) && least >= 1.0 && largest >= 0.0 && ServedBounded(config, f, least, largest)
    requires AllTwinsThroughout(config, f, es, keys, enqueuedNs, deadlineNs, largest)
    ensures ServedBounded(config, Run(config, f, es), least, largest)
    ensures forall k :: k in keys ==> OccupiedThroughout(config, f, es, k)
    decreases |es|
  {
    hide Next, Ceiling, KeySet, SequencesIncrease, IdsDistinct, WellFormed;
    if es != [] {
      var e, f' := es[0], Next(config, f, es[0]);
      assert AllTwins(f', keys, enqueuedNs, deadlineNs, largest);
      assert f.credit.Keys == keys == f'.credit.Keys;
      LeastStaysLow(config, f, e);
      forall k | k in f'.credit
        ensures f'.credit[k].weight >= least && f'.credit[k].served <= Ceiling(config, f'.credit[k].weight, least, largest)
      {
        CeilingStep(config, f, e, k, keys, enqueuedNs, deadlineNs, largest, least);
      }
      BoundedRun(config, f', es[1..], keys, enqueuedNs, deadlineNs, largest, least);
    }
  }

  lemma NobodyServedYet(config: Config, f: Flat, least: real, largest: real)
    requires config.Valid() && least >= 1.0 && largest >= 0.0 && f.credit != map[]
    requires forall k :: k in f.credit ==> f.credit[k].weight >= least && f.credit[k].served == 0.0
    ensures ServedBounded(config, f, least, largest)
  {
    hide Pull;
    var k :| k in f.credit;
    forall j | j in f.credit ensures 0.0 <= Ceiling(config, f.credit[j].weight, least, largest) {
      LowIsBelowPull(config, f.credit[j], least);
    }
  }

  /** Every run, of any length and across every renormalisation, in which the occupied queues stay the same and
      all their requests are equally old and equally urgent: what any two of them were served per weight differs
      by at most a constant and the gap there was at the start. */
  lemma LinearLawFrom(config: Config, f: Flat, es: seq<Event>, keys: set<QueueKey>, enqueuedNs: nat, deadlineNs: nat, largest: real, least: real,
                      a: QueueKey, b: QueueKey)
    requires config.Valid() && WellFormed(f) && least >= 1.0 && largest >= 0.0 && a in keys && b in keys
    requires AllTwinsThroughout(config, f, es, keys, enqueuedNs, deadlineNs, largest) && ServedBounded(config, f, least, largest)
    ensures a in f.credit && b in f.credit
    ensures -Ceiling(config, f.credit[b].weight, least, largest) <= Deviation(config, f, es, a, b) + Gap(f, a, b) <=
            Ceiling(config, f.credit[a].weight, least, largest)
  {
    assert f.credit.Keys == keys;
    hide Next, Run, Ceiling, Deviation, AllTwinsThroughout, KeySet, SequencesIncrease, IdsDistinct, WellFormed;
    BoundedRun(config, f, es, keys, enqueuedNs, deadlineNs, largest, least);
    OccupiedAtEnd(config, f, es, a);
    OccupiedAtEnd(config, f, es, b);
    DeviationIsGap(config, f, es, a, b);
    NotNegative(Run(config, f, es), a);
    NotNegative(Run(config, f, es), b);
  }

  /** From queues not served yet: service goes by weight up to a constant, however long the run. */
  lemma LinearLaw(config: Config, f: Flat, es: seq<Event>, keys: set<QueueKey>, enqueuedNs: nat, deadlineNs: nat, largest: real, least: real,
                  a: QueueKey, b: QueueKey)
    requires config.Valid() && WellFormed(f) && least >= 1.0 && largest >= 0.0 && a in keys && b in keys
    requires AllTwinsThroughout(config, f, es, keys, enqueuedNs, deadlineNs, largest)
    requires forall k :: k in f.credit ==> f.credit[k].weight >= least && f.credit[k].served == 0.0
    ensures a in f.credit && b in f.credit
    ensures -Ceiling(config, f.credit[b].weight, least, largest) <= Deviation(config, f, es, a, b) <=
            Ceiling(config, f.credit[a].weight, least, largest)
  {
    assert f.credit.Keys == keys;
    hide Next, Ceiling, Deviation, AllTwinsThroughout, KeySet, SequencesIncrease, IdsDistinct, WellFormed, ServedBounded;
    NobodyServedYet(config, f, least, largest);
    LinearLawFrom(config, f, es, keys, enqueuedNs, deadlineNs, largest, least, a, b);
  }

  lemma NotNegative(f: Flat, k: QueueKey)
    requires WellFormed(f) && k in f.credit
    ensures f.credit[k].served >= 0.0
  {
  }
}
