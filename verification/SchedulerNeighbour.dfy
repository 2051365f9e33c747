/** A queue that waits beside two competing ones and is not served keeps `served` from being renormalised. Then
    the two share service by the squares of their weights for as long as it waits: an unbounded departure from
    sharing by weight. */
module SchedulerNeighbour {
  import opened Sums
  import opened SchedulerModel
  import opened SchedulerRuns
  import opened SchedulerShares
  import opened SchedulerLongRun

  // -------------------------------------------------------------------------- nothing is taken off

  lemma UnservedKeepsAll(config: Config, f: Flat, e: Event, c: QueueKey)
    requires config.Valid() && WellFormed(f) && c in f.credit && f.credit[c].served <= config.quantum * 1000.0
    requires ServedKey(config, f, e) != Some(c)
    ensures TakenOff(config, f, e) == 0.0
  {
    hide Score, KeySet, SequencesIncrease, IdsDistinct;
    if e.Pop? && f.waiting != [] {
      var i := Choice(config, f, e.now);
      KeyHasCredit(f, i);
      var k := f.waiting[i].Key();
      var charged := f.credit[k := Charge(f.credit[k], f.waiting[i].request.Work())];
      assert c in charged && charged[c] == f.credit[c];
      assert MinServed(charged) <= charged[c].served;
    }
  }

  lemma {:induction false} NothingTakenOff(config: Config, f: Flat, es: seq<Event>, c: QueueKey)
    requires config.Valid() && WellFormed(f) && OccupiedThroughout(config, f, es, c) && NeverServed(config, f, es, c)
    requires f.credit[c].served <= config.quantum * 1000.0
    ensures TotalTaken(config, f, es) == 0.0
    decreases |es|
  {
    if es != [] {
      var f' := Next(config, f, es[0]);
      ServedAgain(config, f, es, c);
      assert OccupiedThroughout(config, f', es[1..], c) && NeverServed(config, f', es[1..], c);
      assert TotalTaken(config, f, es) == TakenOff(config, f, es[0]) + TotalTaken(config, f', es[1..]);
      hide Next, TakenOff, WorkServed, KeySet, SequencesIncrease, IdsDistinct, WellFormed, OccupiedThroughout, NeverServed, TotalTaken, Per;
      UnservedKeepsAll(config, f, es[0], c);
      ServedStep(config, f, es[0], c);
      NotServed(config, f, es[0], c);
      PerAdds(0.0, 0.0, f.credit[c].weight);
      NothingTakenOff(config, f', es[1..], c);
    }
  }

  /** Every run of two competing queues, neither served before, beside a third that stays occupied and is not
      served: the heavier exceeds its share by weight by as much as the lighter one is served, times the
      difference of the weights. */
  lemma NotByWeight(config: Config, start: Flat, serving: seq<Event>, a: QueueKey, b: QueueKey, c: QueueKey,
                    enqueuedNs: nat, deadlineNs: nat, largest: real)
    requires config.Valid() && WellFormed(start) && a != b && largest >= 0.0
    requires TwinsThroughout(config, start, serving, a, b, enqueuedNs, deadlineNs, largest)
    requires start.credit[a].weight >= start.credit[b].weight >= 1.0 && start.credit[a].served == 0.0 == start.credit[b].served
    requires OccupiedThroughout(config, start, serving, c) && NeverServed(config, start, serving, c)
    requires start.credit[c].served <= config.quantum * 1000.0
    ensures
      var wa, wb, q := start.credit[a].weight, start.credit[b].weight, config.quantum;
      Times(wb, Deviation(config, start, serving, a, b)) >=
      Times(wa - wb, Per(TotalWork(config, start, serving, b), wb) + q) - Max(Times(q, wa - wb), Pull(largest, wb, wa))
  {
    hide *;
    TwinsNext(config, start, serving, a, b, enqueuedNs, deadlineNs, largest);
    LevelFollowsServed(config, start, serving, a, b, enqueuedNs, deadlineNs, largest);
    AtLeastServed(config, start, serving, a, b, largest);
    ServedIsAllWork(config, start, serving, b, c);
  }

  lemma ServedIsAllWork(config: Config, start: Flat, serving: seq<Event>, b: QueueKey, c: QueueKey)
    requires config.Valid() && WellFormed(start) && OccupiedThroughout(config, start, serving, b) && start.credit[b].served == 0.0
    requires OccupiedThroughout(config, start, serving, c) && NeverServed(config, start, serving, c)
    requires start.credit[c].served <= config.quantum * 1000.0
    ensures b in Run(config, start, serving).credit && start.credit[b].weight >= 1.0
    ensures Run(config, start, serving).credit[b].served == Per(TotalWork(config, start, serving, b), start.credit[b].weight)
  {
    hide *;
    NothingTakenOff(config, start, serving, c);
    ServedOverRun(config, start, serving, b);
  }

  lemma AtLeastServed(config: Config, start: Flat, serving: seq<Event>, a: QueueKey, b: QueueKey, largest: real)
    requires config.Valid() && WellFormed(start) && FollowsServed(config, start, serving, a, b, largest)
    ensures OccupiedThroughout(config, start, serving, b) && a in start.credit && b in start.credit && b in Run(config, start, serving).credit
    ensures
      var wa, wb, q := start.credit[a].weight, start.credit[b].weight, config.quantum;
      && wa >= 1.0 && wb >= 1.0
      && Times(wb, Deviation(config, start, serving, a, b)) >=
         Times(wa - wb, Run(config, start, serving).credit[b].served + q) - Max(Times(q, wa - wb), Pull(largest, wb, wa))
  {
    hide Run, Next, KeySet, SequencesIncrease, IdsDistinct, WellFormed, Deviation, Times, Pull, PeakServed;
  }

  // ------------------------------------------------------------------------------- such a run

  const HEAVY := QueueKey(Standard, "heavy", "")
  const LIGHT := QueueKey(Standard, "light", "")
  const FRESH := QueueKey(Standard, "fresh", "")

  /** Overdue requests of two tenants of weights 2 and 1, and one request that is not due yet. */
  function HeavyOne(i: nat): Request { Request(2 * i + 1, Standard, "heavy", "", 1.0, 0) }
  function LightOne(i: nat): Request { Request(2 * i + 2, Standard, "light", "", 1.0, 0) }
  const FRESH_ONE := Request(0, Standard, "fresh", "", 1.0, 1)

  function Room(n: nat): Config { Config(2 * n + 1, 0, 0, 0, 1.0) }

  function Filling(n: nat): seq<Event>
  {
    if n == 0 then [Enqueue(FRESH_ONE, 0, 1, 1, 1, 0)]
    else Filling(n - 1) + [Enqueue(HeavyOne(n - 1), 0, 2, 1, 1, 0)] + [Enqueue(LightOne(n - 1), 0, 1, 1, 1, 0)]
  }

  function Pops(n: nat): seq<Event> { if n == 0 then [] else [Pop(0)] + Pops(n - 1) }

  /** The line after filling. */
  function Line(n: nat): (w: seq<Queued>)
    ensures |w| == 2 * n + 1
  {
    if n == 0 then [Queued(FRESH_ONE, 0, 1, 0, 1)]
    else Line(n - 1) + [Queued(HeavyOne(n - 1), 0, 0, 0, 2 * n)] + [Queued(LightOne(n - 1), 0, 0, 0, 2 * n + 1)]
  }

  function Credits(n: nat): map<QueueKey, Credit>
  {
    if n == 0 then map[FRESH := Credit(0.0, 1.0)] else map[FRESH := Credit(0.0, 1.0), HEAVY := Credit(0.0, 2.0), LIGHT := Credit(0.0, 1.0)]
  }

  function Count(w: seq<Queued>, k: QueueKey): nat
  {
    if w == [] then 0 else Count(w[..|w| - 1], k) + if w[|w| - 1].Key() == k then 1 else 0
  }

  lemma CountAppend(w: seq<Queued>, q: Queued, k: QueueKey)
    ensures Count(w + [q], k) == Count(w, k) + if q.Key() == k then 1 else 0
  {
    assert (w + [q])[..|w|] == w;
  }

  lemma {:induction false} CountRemove(w: seq<Queued>, i: nat, k: QueueKey)
    requires i < |w|
    ensures Count(Remove(w, i), k) == Count(w, k) - if w[i].Key() == k then 1 else 0
  {
    var front := w[..|w| - 1];
    if i == |w| - 1 {
      assert Remove(w, i) == front;
    } else {
      CountRemove(front, i, k);
      assert Remove(w, i)[..|w| - 2] == Remove(front, i);
      assert Remove(w, i)[|w| - 2] == w[|w| - 1];
    }
  }

  lemma {:induction false} CountedIsThere(w: seq<Queued>, k: QueueKey)
    requires Count(w, k) > 0
    ensures k in KeySet(w)
  {
    if w[|w| - 1].Key() != k {
      CountedIsThere(w[..|w| - 1], k);
      var i :| 0 <= i < |w| - 1 && w[..|w| - 1][i].Key() == k;
      assert w[i].Key() == k;
    }
  }

  /** The entries of the line are those of the three queues. */
  predicate Known(q: Queued)
  {
    && q.enqueuedNs == 0 && q.request.units == 1.0
    && ((q.Key() == FRESH && q.deadlineNs == 1) || (q.Key() in {HEAVY, LIGHT} && q.deadlineNs == 0))
  }

  lemma {:induction false} LineHolds(n: nat)
    ensures forall i :: 0 <= i < |Line(n)| ==> Known(Line(n)[i]) && Line(n)[i].request.id <= 2 * n && Line(n)[i].bodyBytes == 0
    ensures Count(Line(n), HEAVY) == n == Count(Line(n), LIGHT) && Count(Line(n), FRESH) == 1 && SumBytes(Line(n)) == 0
  {
    if n > 0 {
      LineHolds(n - 1);
      var w, qa, qb := Line(n - 1), Queued(HeavyOne(n - 1), 0, 0, 0, 2 * n), Queued(LightOne(n - 1), 0, 0, 0, 2 * n + 1);
      forall k ensures Count(Line(n), k) == Count(w, k) + (if qa.Key() == k then 1 else 0) + if qb.Key() == k then 1 else 0 {
        CountAppend(w, qa, k);
        CountAppend(w + [qa], qb, k);
      }
      assert (w + [qa] + [qb])[..|w| + 1] == w + [qa] && (w + [qa])[..|w|] == w;
    }
  }

  lemma {:induction false} RunOneMore(config: Config, f: Flat, es: seq<Event>, e: Event)
    requires config.Valid() && WellFormed(f)
    ensures Run(config, f, es + [e]) == Next(config, Run(config, f, es), e)
    decreases |es|
  {
    hide Next, WellFormed;
    if es == [] {
      assert ([] + [e])[1..] == [];
      assert Run(config, Next(config, f, e), []) == Next(config, f, e);
    } else {
      assert (es + [e])[1..] == es[1..] + [e] && (es + [e])[0] == es[0];
      RunOneMore(config, Next(config, f, es[0]), es[1..], e);
    }
  }

  lemma EmptyIsWellFormed()
    ensures WellFormed(EMPTY)
  {
  }

  lemma EnqueueAccepted(config: Config, f: Flat, request: Request, weight: nat)
    requires config.Valid() && WellFormed(f) && |f.waiting| < config.maxDepth && SumBytes(f.waiting) == 0 && request.id !in Ids(f.waiting)
    requires request.deadline <= 1
    ensures
      var k := request.Key();
      Next(config, f, Enqueue(request, 0, weight, 1, 1, 0)) ==
      Flat(f.waiting + [Queued(request, 0, request.deadline, 0, f.sequence + 1)],
           if k in f.credit then f.credit else f.credit[k := Credit(0.0, Weight(weight, 1, 1))], f.sequence + 1)
  {
    hide WellFormed, Weight;
  }

  lemma IdsOf(w: seq<Queued>, bound: nat)
    requires forall i :: 0 <= i < |w| ==> w[i].request.id <= bound
    ensures forall id :: id in Ids(w) ==> id <= bound
  {
  }

  lemma Weights()
    ensures Weight(2, 1, 1) == 2.0 && Weight(1, 1, 1) == 1.0
  {
  }

  lemma FilledTwoMore(config: Config, f: Flat, n: nat)
    requires config.Valid() && WellFormed(f) && n > 0 && config.maxDepth >= 2 * n + 1 && f == Flat(Line(n - 1), Credits(n - 1), 2 * n - 1)
    ensures
      var g := Next(config, f, Enqueue(HeavyOne(n - 1), 0, 2, 1, 1, 0));
      Next(config, g, Enqueue(LightOne(n - 1), 0, 1, 1, 1, 0)) == Flat(Line(n), Credits(n), 2 * n + 1)
  {
    hide *;
    var qa, credit := Queued(HeavyOne(n - 1), 0, 0, 0, 2 * n), map[FRESH := Credit(0.0, 1.0), HEAVY := Credit(0.0, 2.0)];
    FirstOfTwo(config, f, n, qa, credit);
    SecondOfTwo(config, Next(config, f, Enqueue(HeavyOne(n - 1), 0, 2, 1, 1, 0)), n, qa, credit);
  }

  lemma FirstFacts(n: nat)
    requires n > 0
    ensures HeavyOne(n - 1).Key() == HEAVY && HeavyOne(n - 1).id == 2 * n - 1 && HeavyOne(n - 1).deadline == 0
    ensures if HEAVY in Credits(n - 1) then n > 1 && Credits(n - 1) == Credits(n)
            else n == 1 && Credits(n - 1)[HEAVY := Credit(0.0, 2.0)] == map[FRESH := Credit(0.0, 1.0), HEAVY := Credit(0.0, 2.0)]
  {
  }

  lemma SecondFacts(n: nat)
    requires n > 0
    ensures LightOne(n - 1).Key() == LIGHT && LightOne(n - 1).id == 2 * n && LightOne(n - 1).deadline == 0 && HeavyOne(n - 1).id == 2 * n - 1
    ensures Line(n) == Line(n - 1) + [Queued(HeavyOne(n - 1), 0, 0, 0, 2 * n)] + [Queued(LightOne(n - 1), 0, 0, 0, 2 * n + 1)]
    ensures
      var credit := map[FRESH := Credit(0.0, 1.0), HEAVY := Credit(0.0, 2.0)];
      LIGHT !in credit && LIGHT in Credits(n) && (n == 1 ==> credit[LIGHT := Credit(0.0, 1.0)] == Credits(n))
  {
  }

  lemma FirstOfTwo(config: Config, f: Flat, n: nat, qa: Queued, credit: map<QueueKey, Credit>)
    requires config.Valid() && WellFormed(f) && n > 0 && config.maxDepth >= 2 * n + 1 && f == Flat(Line(n - 1), Credits(n - 1), 2 * n - 1)
    requires qa == Queued(HeavyOne(n - 1), 0, 0, 0, 2 * n) && credit == map[FRESH := Credit(0.0, 1.0), HEAVY := Credit(0.0, 2.0)]
    ensures Next(config, f, Enqueue(HeavyOne(n - 1), 0, 2, 1, 1, 0)) == Flat(Line(n - 1) + [qa], if n == 1 then credit else Credits(n), 2 * n)
  {
    hide *;
    FirstFacts(n);
    Weights();
    LineHolds(n - 1);
    IdsOf(f.waiting, 2 * n - 2);
    EnqueueAccepted(config, f, HeavyOne(n - 1), 2);
  }

  lemma BytesOf(w: seq<Queued>, q: Queued)
    ensures SumBytes(w + [q]) == SumBytes(w) + q.bodyBytes
  {
    assert (w + [q])[..|w|] == w;
  }

  lemma SecondOfTwo(config: Config, g: Flat, n: nat, qa: Queued, credit: map<QueueKey, Credit>)
    requires config.Valid() && WellFormed(g) && n > 0 && config.maxDepth >= 2 * n + 1
    requires qa == Queued(HeavyOne(n - 1), 0, 0, 0, 2 * n) && credit == map[FRESH := Credit(0.0, 1.0), HEAVY := Credit(0.0, 2.0)]
    requires g == Flat(Line(n - 1) + [qa], if n == 1 then credit else Credits(n), 2 * n)
    ensures Next(config, g, Enqueue(LightOne(n - 1), 0, 1, 1, 1, 0)) == Flat(Line(n), Credits(n), 2 * n + 1)
  {
    hide *;
    SecondFacts(n);
    BytesOf(Line(n - 1), qa);
    Weights();
    LineHolds(n - 1);
    IdsOf(g.waiting, 2 * n - 1);
    EnqueueAccepted(config, g, LightOne(n - 1), 1);
  }

  lemma {:induction false} Filled(config: Config, n: nat)
    requires config.Valid() && WellFormed(EMPTY) && config.maxDepth >= 2 * n + 1
    ensures Run(config, EMPTY, Filling(n)) == Flat(Line(n), Credits(n), 2 * n + 1)
  {
    if n == 0 {
      Weights();
      EnqueueAccepted(config, EMPTY, FRESH_ONE, 1);
      hide Weight;
      assert Filling(0)[1..] == [];
    } else {
      Filled(config, n - 1);
      hide Next, WellFormed, Run, Line, Credits;
      var f, a, b := Run(config, EMPTY, Filling(n - 1)), Enqueue(HeavyOne(n - 1), 0, 2, 1, 1, 0), Enqueue(LightOne(n - 1), 0, 1, 1, 1, 0);
      FilledTwoMore(config, f, n);
      RunOneMore(config, EMPTY, Filling(n - 1), a);
      RunOneMore(config, EMPTY, Filling(n - 1) + [a], b);
    }
  }

  /** At least `n` requests of either competing queue, and the fresh one, none served. */
  ghost predicate Stock(f: Flat, n: nat)
  {
    && (forall i :: 0 <= i < |f.waiting| ==> Known(f.waiting[i]))
    && Count(f.waiting, HEAVY) >= n && Count(f.waiting, LIGHT) >= n && Count(f.waiting, FRESH) >= 1
    && FRESH in f.credit && f.credit[FRESH] == Credit(0.0, 1.0)
  }

  /** An overdue request is taken before the one that is not due. */
  lemma FreshWaits(config: Config, f: Flat)
    requires config.Valid() && WellFormed(f) && config.agingHalfLife == 0 && config.deadlineWindow == 0 && Stock(f, 1)
    ensures ServedKey(config, f, Pop(0)) in {Some(HEAVY), Some(LIGHT)}
    ensures forall k :: WorkServed(config, f, Pop(0), k) == if ServedKey(config, f, Pop(0)) == Some(k) then 1.0 else 0.0
  {
    hide SequencesIncrease, IdsDistinct, Count, Fair;
    CountedIsThere(f.waiting, HEAVY);
    var j :| 0 <= j < |f.waiting| && f.waiting[j].Key() == HEAVY;
    hide KeySet;
    var i := Choice(config, f, 0);
    var h := HeadOf(f.waiting, j);
    KeyHasCredit(f, i);
    KeyHasCredit(f, h);
    ScoreBounds(config, f.credit[f.waiting[i].Key()], f.waiting[i], 0);
    ScoreBounds(config, f.credit[f.waiting[h].Key()], f.waiting[h], 0);
    assert Known(f.waiting[i]) && Known(f.waiting[h]);
    assert i == h || Beats(config, f, 0, i, h);
  }

  lemma StockIsTwins(f: Flat, n: nat)
    requires WellFormed(f) && Stock(f, n) && n >= 1
    ensures Twins(f, HEAVY, LIGHT, 0, 0, 1.0)
  {
    hide SequencesIncrease, IdsDistinct, Count;
    CountedIsThere(f.waiting, HEAVY);
    CountedIsThere(f.waiting, LIGHT);
    hide KeySet;
    assert forall i :: 0 <= i < |f.waiting| ==> Known(f.waiting[i]);
  }

  /** The line after a pop is the line before without what was taken. */
  lemma PopRemoves(config: Config, f: Flat) returns (i: nat)
    requires config.Valid() && WellFormed(f) && f.waiting != []
    ensures i < |f.waiting| && Next(config, f, Pop(0)).waiting == Remove(f.waiting, i) && ServedKey(config, f, Pop(0)) == Some(f.waiting[i].Key())
  {
    i := Choice(config, f, 0);
    hide Score, KeySet, SequencesIncrease, IdsDistinct;
    ChargedWellFormed(config, f, i);
  }

  lemma RemoveKnown(w: seq<Queued>, i: nat)
    requires i < |w| && forall j :: 0 <= j < |w| ==> Known(w[j])
    ensures forall j :: 0 <= j < |Remove(w, i)| ==> Known(Remove(w, i)[j])
  {
    hide Known;
    assert forall j :: 0 <= j < |Remove(w, i)| ==> Remove(w, i)[j] == w[if j < i then j else j + 1];
  }

  lemma FreshStays(config: Config, f: Flat, f': Flat)
    requires config.Valid() && WellFormed(f) && f' == Next(config, f, Pop(0)) && FRESH in f.credit && f.credit[FRESH] == Credit(0.0, 1.0)
    requires ServedKey(config, f, Pop(0)) != Some(FRESH) && Count(f'.waiting, FRESH) >= 1
    ensures FRESH in f'.credit && f'.credit[FRESH] == Credit(0.0, 1.0)
  {
    hide Next, SequencesIncrease, IdsDistinct, KeySet, TakenOff, ServedKey, WorkServed, Count;
    CountedIsThere(f'.waiting, FRESH);
    assert f'.credit.Keys == KeySet(f'.waiting);
    UnservedKeepsAll(config, f, Pop(0), FRESH);
    NotServed(config, f, Pop(0), FRESH);
    ServedStep(config, f, Pop(0), FRESH);
  }

  lemma PopKeepsStock(config: Config, f: Flat, n: nat)
    requires config.Valid() && WellFormed(f) && config.agingHalfLife == 0 && config.deadlineWindow == 0 && Stock(f, n + 1)
    ensures Stock(Next(config, f, Pop(0)), n)
  {
    hide Next, WellFormed, ServedKey, WorkServed, Known, Count, Remove;
    FreshWaits(config, f);
    var f' := Next(config, f, Pop(0));
    NotEmpty(f.waiting, FRESH);
    var i := PopRemoves(config, f);
    RemoveKnown(f.waiting, i);
    CountRemove(f.waiting, i, HEAVY);
    CountRemove(f.waiting, i, LIGHT);
    CountRemove(f.waiting, i, FRESH);
    FreshStays(config, f, f');
  }

  lemma NotEmpty(w: seq<Queued>, k: QueueKey)
    ensures Count(w, k) > 0 ==> w != []
  {
  }

  lemma {:induction false} PopsRun(config: Config, f: Flat, n: nat)
    requires config.Valid() && WellFormed(f) && config.agingHalfLife == 0 && config.deadlineWindow == 0 && Stock(f, n + 1)
    ensures TwinsThroughout(config, f, Pops(n), HEAVY, LIGHT, 0, 0, 1.0)
    ensures OccupiedThroughout(config, f, Pops(n), FRESH) && NeverServed(config, f, Pops(n), FRESH)
    ensures TotalWork(config, f, Pops(n), HEAVY) + TotalWork(config, f, Pops(n), LIGHT) == n as real
    decreases n
  {
    hide Next, WellFormed, ServedKey, WorkServed, Known, Count, Twins;
    StockIsTwins(f, n + 1);
    if n > 0 {
      var f' := Next(config, f, Pop(0));
      assert Pops(n)[0] == Pop(0) && Pops(n)[1..] == Pops(n - 1);
      assert Stock(f, 1);
      FreshWaits(config, f);
      PopKeepsStock(config, f, n);
      PopsRun(config, f', n - 1);
      assert TotalWork(config, f, Pops(n), HEAVY) == WorkServed(config, f, Pop(0), HEAVY) + TotalWork(config, f', Pops(n - 1), HEAVY);
      assert TotalWork(config, f, Pops(n), LIGHT) == WorkServed(config, f, Pop(0), LIGHT) + TotalWork(config, f', Pops(n - 1), LIGHT);
    }
  }

  lemma FilledStock(n: nat, f: Flat)
    requires n > 0 && f == Flat(Line(n), Credits(n), 2 * n + 1)
    ensures Stock(f, n)
    ensures f.credit[HEAVY] == Credit(0.0, 2.0) && f.credit[LIGHT] == Credit(0.0, 1.0)
  {
    LineHolds(n);
    hide Line, Known, Count;
  }

  /** After n pops of this run the tenant of weight 2 is ahead of its share by weight by a fifth of n: the queues
      do not receive service in proportion to their weights. */
  lemma WeightsDoNotDecide(n: nat)
    ensures
      var config := Room(n + 1);
      && WellFormed(EMPTY)
      && var start := Run(config, EMPTY, Filling(n + 1));
      && HEAVY in start.credit && start.credit[HEAVY].weight == 2.0 && LIGHT in start.credit && start.credit[LIGHT].weight == 1.0
      && 5.0 * Deviation(config, start, Pops(n), HEAVY, LIGHT) >= n as real - 3.0
  {
    var config := Room(n + 1);
    EmptyIsWellFormed();
    Filled(config, n + 1);
    var start := Run(config, EMPTY, Filling(n + 1));
    FilledStock(n + 1, start);
    hide Run, Filling, Line, Credits, WellFormed, Stock;
    PopsRun(config, start, n);
    StartDeviates(config, start, Pops(n), n);
  }

  lemma StartDeviates(config: Config, start: Flat, serving: seq<Event>, n: nat)
    requires config.Valid() && config.quantum == 1.0 && WellFormed(start) && HEAVY in start.credit && LIGHT in start.credit && FRESH in start.credit
    requires start.credit[HEAVY] == Credit(0.0, 2.0) && start.credit[LIGHT] == Credit(0.0, 1.0) && start.credit[FRESH] == Credit(0.0, 1.0)
    requires TwinsThroughout(config, start, serving, HEAVY, LIGHT, 0, 0, 1.0)
    requires OccupiedThroughout(config, start, serving, FRESH) && NeverServed(config, start, serving, FRESH)
    requires TotalWork(config, start, serving, HEAVY) + TotalWork(config, start, serving, LIGHT) == n as real
    ensures 5.0 * Deviation(config, start, serving, HEAVY, LIGHT) >= n as real - 3.0
  {
    hide TwinsThroughout, OccupiedThroughout, NeverServed, TotalWork, KeySet, SequencesIncrease, IdsDistinct, WellFormed;
    NotByWeight(config, start, serving, HEAVY, LIGHT, FRESH, 0, 0, 1.0);
  }
}
