/** Which request a pop takes, said of deadlines, ages, weights and order of arrival, and what every operation does
    to the requests that wait. */
module SchedulerChoice {
  import opened Sums
  import opened SchedulerModel
  import opened SchedulerRuns

  // ----------------------------------------------------------------------- the request that is taken

  /** The pop takes request `i`, although `j` is at the front of another queue. */
  ghost predicate TakenBefore(config: Config, f: Flat, now: nat, i: nat, j: nat)
    requires config.Valid() && WellFormed(f)
  {
    f.waiting != [] && i == Choice(config, f, now) && j < |f.waiting| && IsHead(f.waiting, j) && j != i
  }

  /** The queues of the two requests have the same weight and have been served alike. */
  ghost predicate SameStanding(f: Flat, i: nat, j: nat)
    requires WellFormed(f) && i < |f.waiting| && j < |f.waiting|
  {
    KeyHasCredit(f, i);
    KeyHasCredit(f, j);
    f.credit[f.waiting[i].Key()] == f.credit[f.waiting[j].Key()]
  }

  lemma SameStandingCompares(config: Config, f: Flat, now: nat, i: nat, j: nat)
    requires config.Valid() && WellFormed(f) && TakenBefore(config, f, now, i, j) && SameStanding(f, i, j)
    ensures
      var x, y := f.waiting[i], f.waiting[j];
      var sx, sy := Age(config, x, now) + DeadlineBoost(config, x, now), Age(config, y, now) + DeadlineBoost(config, y, now);
      sx >= sy && (sx == sy ==> x.sequence < y.sequence)
  {
    hide Age, DeadlineBoost, Fair, KeySet, SequencesIncrease, IdsDistinct;
    KeyHasCredit(f, i);
    KeyHasCredit(f, j);
    assert Beats(config, f, now, i, j);
  }

  /** A configured duration, which counts as one nanosecond when it is zero. */
  function Duration(ns: nat): real { Max(ns as real, 1.0) }

  /** So near its deadline that coming nearer does not help it any more. */
  predicate Capped(config: Config, q: Queued, now: nat) { (q.deadlineNs - now) as real * 100000.0 <= Duration(config.deadlineWindow) }

  lemma Quotients(window: real, near: real, far: real)
    requires window > 0.0 && 0.0 < near < far
    ensures window / far < window / near
    ensures window / far >= 100000.0 ==> far * 100000.0 <= window && near * 100000.0 <= window
  {
    var a, b := window / near, window / far;
    assert a * near == window && b * far == window;
    assert b > 0.0 && b * (far - near) > 0.0;
    assert (a - b) * near > 0.0;
    if b >= 100000.0 { assert (b - 100000.0) * far >= 0.0; }
  }

  lemma FartherBoostIsLess(config: Config, x: Queued, y: Queued, now: nat)
    requires now < y.deadlineNs < x.deadlineNs && DeadlineBoost(config, x, now) >= DeadlineBoost(config, y, now)
    ensures Capped(config, x, now) && Capped(config, y, now)
  {
    Quotients(Duration(config.deadlineWindow), (y.deadlineNs - now) as real, (x.deadlineNs - now) as real);
  }

  /** Of two equally old requests whose queues stand alike, neither overdue, a pop takes the one with the nearer
      deadline, unless both are so near that the urgency of both is capped; then, and with equal deadlines, the one
      that came first. */
  lemma NearerDeadlineFirst(config: Config, f: Flat, now: nat, i: nat, j: nat)
    requires config.Valid() && WellFormed(f) && TakenBefore(config, f, now, i, j) && SameStanding(f, i, j)
    requires f.waiting[i].enqueuedNs == f.waiting[j].enqueuedNs && now < f.waiting[i].deadlineNs && now < f.waiting[j].deadlineNs
    ensures
      var x, y := f.waiting[i], f.waiting[j];
      || x.deadlineNs < y.deadlineNs
      || ((x.deadlineNs == y.deadlineNs || (Capped(config, x, now) && Capped(config, y, now))) && x.sequence < y.sequence)
  {
    var x, y := f.waiting[i], f.waiting[j];
    SameStandingCompares(config, f, now, i, j);
    hide Choice, SameStanding, WellFormed;
    if x.deadlineNs > y.deadlineNs {
      FartherBoostIsLess(config, x, y, now);
      CappedBoost(config, x, now);
      CappedBoost(config, y, now);
    }
  }

  lemma CappedBoost(config: Config, x: Queued, now: nat)
    requires now < x.deadlineNs && Capped(config, x, now)
    ensures DeadlineBoost(config, x, now) == 100000.0
  {
    var r := (x.deadlineNs - now) as real;
    var b := Duration(config.deadlineWindow) / r;
    assert b * r == Duration(config.deadlineWindow);
    assert (b - 100000.0) * r >= 0.0;
  }

  lemma NotOverdueBoost(config: Config, x: Queued, now: nat)
    requires now < x.deadlineNs
    ensures DeadlineBoost(config, x, now) <= 100000.0
  {
  }

  /** An overdue request goes before an equally old one that is not overdue; of two overdue ones the first goes. */
  lemma OverdueFirst(config: Config, f: Flat, now: nat, i: nat, j: nat)
    requires config.Valid() && WellFormed(f) && TakenBefore(config, f, now, i, j) && SameStanding(f, i, j)
    requires f.waiting[i].enqueuedNs == f.waiting[j].enqueuedNs && f.waiting[j].deadlineNs <= now
    ensures f.waiting[i].deadlineNs <= now && f.waiting[i].sequence < f.waiting[j].sequence
  {
    SameStandingCompares(config, f, now, i, j);
    hide Choice, SameStanding, WellFormed;
    if now < f.waiting[i].deadlineNs { NotOverdueBoost(config, f.waiting[i], now); }
  }

  lemma UncappedBoost(config: Config, x: Queued, now: nat)
    requires now < x.deadlineNs && !Capped(config, x, now)
    ensures DeadlineBoost(config, x, now) == Duration(config.deadlineWindow) / (x.deadlineNs - now) as real
  {
    var r := (x.deadlineNs - now) as real;
    var b := Duration(config.deadlineWindow) / r;
    assert b * r == Duration(config.deadlineWindow);
    assert (100000.0 - b) * r == 100000.0 * r - b * r;
    assert b < 100000.0;
  }

  lemma AgesApart(config: Config, x: Queued, y: Queued, now: nat)
    requires x.enqueuedNs <= now && y.enqueuedNs <= now
    ensures Age(config, y, now) - Age(config, x, now) == (x.enqueuedNs - y.enqueuedNs) as real / Duration(config.agingHalfLife)
  {
  }

  /** Age against urgency: a request is taken before an older one whose queue stands alike only if what it is
      younger by, in half-lives, is at most what its deadline is more urgent by. */
  lemma AgeAgainstUrgency(config: Config, f: Flat, now: nat, i: nat, j: nat)
    requires config.Valid() && WellFormed(f) && TakenBefore(config, f, now, i, j) && SameStanding(f, i, j)
    requires f.waiting[i].enqueuedNs <= now && f.waiting[j].enqueuedNs <= now
    requires now < f.waiting[i].deadlineNs && now < f.waiting[j].deadlineNs
    requires !Capped(config, f.waiting[i], now) && !Capped(config, f.waiting[j], now)
    ensures
      var x, y := f.waiting[i], f.waiting[j];
      (x.enqueuedNs - y.enqueuedNs) as real / Duration(config.agingHalfLife) <=
      Duration(config.deadlineWindow) / (x.deadlineNs - now) as real - Duration(config.deadlineWindow) / (y.deadlineNs - now) as real
  {
    SameStandingCompares(config, f, now, i, j);
    UncappedBoost(config, f.waiting[i], now);
    UncappedBoost(config, f.waiting[j], now);
    AgesApart(config, f.waiting[i], f.waiting[j], now);
  }

  /** A request that is not overdue is taken before an overdue one whose queue stands alike only if it is older by at
      least 900,000 half-lives. */
  lemma OverdueAgainstAge(config: Config, f: Flat, now: nat, i: nat, j: nat)
    requires config.Valid() && WellFormed(f) && TakenBefore(config, f, now, i, j) && SameStanding(f, i, j)
    requires f.waiting[i].enqueuedNs <= now && f.waiting[j].enqueuedNs <= now && f.waiting[j].deadlineNs <= now < f.waiting[i].deadlineNs
    ensures (f.waiting[j].enqueuedNs - f.waiting[i].enqueuedNs) as real / Duration(config.agingHalfLife) >= 900000.0
  {
    SameStandingCompares(config, f, now, i, j);
    NotOverdueBoost(config, f.waiting[i], now);
    AgesApart(config, f.waiting[j], f.waiting[i], now);
  }

  // ------------------------------------------------------------------------------ weights and arrival

  /** A weight of zero counts as one. */
  function Factor(weight: nat): nat { if weight == 0 then 1 else weight }

  /** The weight of a new queue is the product of the three factors: each of them scales it, whatever the others. */
  lemma WeightScales(c: nat, t: nat, a: nat, k: nat)
    requires k > 0
    ensures Weight(k * Factor(c), t, a) == k as real * Weight(c, t, a)
    ensures Weight(c, k * Factor(t), a) == k as real * Weight(c, t, a)
    ensures Weight(c, t, k * Factor(a)) == k as real * Weight(c, t, a)
    ensures Weight(0, t, a) == Weight(1, t, a) && Weight(c, 0, a) == Weight(c, 1, a) && Weight(c, t, 0) == Weight(c, t, 1)
    ensures Weight(1, 1, 1) == 1.0
  {
    hide Weight, Product;
    var x, y, z := Factor(c), Factor(t), Factor(a);
    ProductScales(x, y, z, k);
    FactorOfMultiple(x, k);
    FactorOfMultiple(y, k);
    FactorOfMultiple(z, k);
    WeightIs(c, t, a);
    WeightIs(k * x, t, a);
    WeightIs(c, k * y, a);
    WeightIs(c, t, k * z);
    WeightIs(0, t, a);
    WeightIs(1, t, a);
    WeightIs(c, 0, a);
    WeightIs(c, 1, a);
    WeightIs(c, t, 0);
    WeightIs(c, t, 1);
    WeightOfOnes();
  }

  function Product(x: nat, y: nat, z: nat): nat { x * y * z }

  lemma WeightIs(c: nat, t: nat, a: nat)
    ensures Weight(c, t, a) == Product(Factor(c), Factor(t), Factor(a)) as real
  {
  }

  lemma WeightOfOnes()
    ensures Weight(1, 1, 1) == 1.0
  {
  }

  lemma FactorOfMultiple(x: nat, k: nat)
    requires x > 0 && k > 0
    ensures k * x > 0 && Factor(k * x) == k * x
  {
  }

  lemma ProductScales(x: nat, y: nat, z: nat, k: nat)
    ensures Product(k * x, y, z) as real == k as real * Product(x, y, z) as real
    ensures Product(x, k * y, z) as real == k as real * Product(x, y, z) as real
    ensures Product(x, y, k * z) as real == k as real * Product(x, y, z) as real
  {
    assert (k * x) * y == k * (x * y) && (k * (x * y)) * z == k * ((x * y) * z);
    assert x * (k * y) == k * (x * y);
    assert (x * y) * (k * z) == k * ((x * y) * z);
    RealProduct(k, x * y * z);
  }

  lemma RealProduct(k: nat, n: nat)
    ensures (k * n) as real == k as real * n as real
  {
  }

  /** The three weights that come with an enqueue, multiplied. */
  function Importance(e: Event): nat
    requires e.Enqueue?
  {
    Factor(e.classWeight) * Factor(e.tenantWeight) * Factor(e.appWeight)
  }

  lemma WeightIsImportance(e: Event)
    requires e.Enqueue?
    ensures Weight(e.classWeight, e.tenantWeight, e.appWeight) == Importance(e) as real
  {
  }

  /** Two requests are enqueued one after the other, each the first of its queue. */
  ghost predicate NewPair(config: Config, f: Flat, first: Event, second: Event)
    requires config.Valid() && WellFormed(f)
  {
    && first.Enqueue? && second.Enqueue? && first.request.Key() != second.request.Key()
    && first.request.Key() !in f.credit && second.request.Key() !in f.credit
    && EnqueueError(config, f, first.request, first.bodyBytes).None?
    && EnqueueError(config, Next(config, f, first), second.request, second.bodyBytes).None?
  }

  ghost function Both(config: Config, f: Flat, first: Event, second: Event): Flat
    requires config.Valid() && WellFormed(f)
  {
    Next(config, Next(config, f, first), second)
  }

  lemma AcceptedNext(config: Config, f: Flat, e: Event)
    requires config.Valid() && WellFormed(f) && e.Enqueue? && EnqueueError(config, f, e.request, e.bodyBytes).None?
    ensures
      var k, f' := e.request.Key(), Next(config, f, e);
      && f'.waiting == f.waiting + [Queued(e.request, e.now, SaturatingAdd(e.now, e.request.deadline), e.bodyBytes, f.sequence + 1)]
      && f'.sequence == f.sequence + 1
      && (k !in f.credit ==> f'.credit == f.credit[k := Credit(0.0, Importance(e) as real)])
  {
    WeightIsImportance(e);
    hide WellFormed, Weight, Importance;
  }

  lemma NotThere(f: Flat, k: QueueKey)
    requires WellFormed(f) && k !in f.credit
    ensures forall i :: 0 <= i < |f.waiting| ==> f.waiting[i].Key() != k
  {
    hide SequencesIncrease, IdsDistinct;
    forall i | 0 <= i < |f.waiting| ensures f.waiting[i].Key() != k { KeyHasCredit(f, i); }
  }

  /** Both are at the front of their queues, with the weights they came with and nothing served. */
  lemma PairStands(config: Config, f: Flat, first: Event, second: Event)
    requires config.Valid() && WellFormed(f) && NewPair(config, f, first, second)
    ensures
      var g, n := Both(config, f, first, second), |f.waiting|;
      && |g.waiting| == n + 2 && IsHead(g.waiting, n) && IsHead(g.waiting, n + 1)
      && g.waiting[n] == Queued(first.request, first.now, SaturatingAdd(first.now, first.request.deadline), first.bodyBytes, f.sequence + 1)
      && g.waiting[n + 1] == Queued(second.request, second.now, SaturatingAdd(second.now, second.request.deadline), second.bodyBytes, f.sequence + 2)
      && first.request.Key() in g.credit && g.credit[first.request.Key()] == Credit(0.0, Importance(first) as real)
      && second.request.Key() in g.credit && g.credit[second.request.Key()] == Credit(0.0, Importance(second) as real)
  {
    hide Next, WellFormed, Importance, EnqueueError, SaturatingAdd;
    var f1, g, n := Next(config, f, first), Both(config, f, first, second), |f.waiting|;
    AcceptedNext(config, f, first);
    AcceptedNext(config, f1, second);
    NotThere(f, first.request.Key());
    NotThere(f, second.request.Key());
    assert forall i :: 0 <= i < n ==> g.waiting[i] == f.waiting[i];
  }

  /** The front of a queue is unique. */
  lemma TakenIsHead(config: Config, g: Flat, now: nat, n: nat)
    requires config.Valid() && WellFormed(g) && n < |g.waiting| && IsHead(g.waiting, n) && ServedKey(config, g, Pop(now)) == Some(g.waiting[n].Key())
    ensures g.waiting != [] && Choice(config, g, now) == n
  {
    hide KeySet, SequencesIncrease, IdsDistinct, Beats;
    var i := Choice(config, g, now);
    assert IsHead(g.waiting, i);
  }

  lemma FairUnserved(config: Config, weight: real)
    requires config.Valid() && weight >= 1.0
    ensures Fair(config, Credit(0.0, weight)) == weight
  {
    var q := config.quantum;
    assert weight * q / q == weight;
  }

  lemma BeatsByWeight(config: Config, g: Flat, now: nat, i: nat, j: nat, wi: real, wj: real)
    requires config.Valid() && WellFormed(g) && i < |g.waiting| && j < |g.waiting| && wi >= 1.0 && wj >= 1.0 && Beats(config, g, now, i, j)
    requires g.waiting[i].Key() in g.credit && g.credit[g.waiting[i].Key()] == Credit(0.0, wi)
    requires g.waiting[j].Key() in g.credit && g.credit[g.waiting[j].Key()] == Credit(0.0, wj)
    requires g.waiting[i].enqueuedNs == g.waiting[j].enqueuedNs && g.waiting[i].deadlineNs == g.waiting[j].deadlineNs
    ensures wi > wj || (wi == wj && g.waiting[i].sequence < g.waiting[j].sequence)
  {
    hide WellFormed, Fair;
    FairUnserved(config, wi);
    FairUnserved(config, wj);
    assert Age(config, g.waiting[i], now) == Age(config, g.waiting[j], now);
    assert DeadlineBoost(config, g.waiting[i], now) == DeadlineBoost(config, g.waiting[j], now);
    hide Age, DeadlineBoost;
  }

  /** Of two new queues whose first requests came at the same time with the same deadline, a pop never serves the one
      of less importance, by class, tenant or application; of two equally important ones, never the later. */
  lemma MoreImportantFirst(config: Config, f: Flat, first: Event, second: Event, now: nat)
    requires config.Valid() && WellFormed(f) && NewPair(config, f, first, second)
    requires first.now == second.now && first.request.deadline == second.request.deadline
    ensures
      var served := ServedKey(config, Both(config, f, first, second), Pop(now));
      && (Importance(first) < Importance(second) ==> served != Some(first.request.Key()))
      && (Importance(first) >= Importance(second) ==> served != Some(second.request.Key()))
  {
    PairStands(config, f, first, second);
    var g, n := Both(config, f, first, second), |f.waiting|;
    ImportancePositive(first);
    ImportancePositive(second);
    hide Both, NewPair, ServedKey, Importance, IsHead, WellFormed, SaturatingAdd, Beats;
    if ServedKey(config, g, Pop(now)) == Some(first.request.Key()) {
      TakenIsHead(config, g, now, n);
      ChoiceBeats(config, g, now, n, n + 1);
      BeatsByWeight(config, g, now, n, n + 1, Importance(first) as real, Importance(second) as real);
    } else if ServedKey(config, g, Pop(now)) == Some(second.request.Key()) {
      TakenIsHead(config, g, now, n + 1);
      ChoiceBeats(config, g, now, n + 1, n);
      BeatsByWeight(config, g, now, n + 1, n, Importance(second) as real, Importance(first) as real);
    }
  }

  lemma ImportancePositive(e: Event)
    requires e.Enqueue?
    ensures Importance(e) >= 1
  {
    assert Factor(e.classWeight) * Factor(e.tenantWeight) >= 1;
  }

  lemma ChoiceBeats(config: Config, g: Flat, now: nat, i: nat, j: nat)
    requires config.Valid() && WellFormed(g) && g.waiting != [] && Choice(config, g, now) == i && j < |g.waiting| && IsHead(g.waiting, j) && i != j
    ensures i < |g.waiting| && Beats(config, g, now, i, j)
  {
    hide Beats, WellFormed;
  }

  /** When a request is due, on a clock of 64 bits. */
  function Due(e: Event): nat
    requires e.Enqueue?
  {
    e.now + e.request.deadline
  }

  /** Of two equally important new queues whose first requests came at the same time, a pop does not serve the one
      that is due later, unless both are overdue, both so near that their urgency is capped, or the clock ends before
      either is due. */
  lemma SoonerDueFirst(config: Config, f: Flat, first: Event, second: Event, now: nat)
    requires config.Valid() && WellFormed(f) && NewPair(config, f, first, second)
    requires first.now == second.now && Importance(first) == Importance(second) && Due(first) != Due(second)
    ensures
      var sooner, later := if Due(first) < Due(second) then first else second, if Due(first) < Due(second) then second else first;
      ServedKey(config, Both(config, f, first, second), Pop(now)) == Some(later.request.Key()) ==>
        || now >= Due(later) || (Due(later) - now) as real * 100000.0 <= Duration(config.deadlineWindow) || Due(sooner) >= U64_MAX
        || now >= U64_MAX || (U64_MAX - now) as real * 100000.0 <= Duration(config.deadlineWindow)
  {
    PairStands(config, f, first, second);
    var g, n := Both(config, f, first, second), |f.waiting|;
    var i, j := if Due(first) < Due(second) then n + 1 else n, if Due(first) < Due(second) then n else n + 1;
    var later := if Due(first) < Due(second) then second else first;
    if ServedKey(config, g, Pop(now)) == Some(later.request.Key()) {
      hide Both, NewPair, ServedKey, Importance, Choice;
      TakenIsHead(config, g, now, i);
      assert SameStanding(g, i, j);
      hide IsHead, SameStanding, WellFormed;
      if g.waiting[j].deadlineNs <= now {
        OverdueFirst(config, g, now, i, j);
      } else {
        NearerDeadlineFirst(config, g, now, i, j);
      }
    }
  }

  // ------------------------------------------------------------------------- what every operation does

  /** An enqueue is accepted if and only if the line with the request in it is within its limits and has no id
      twice; the first limit that it breaks is reported. */
  lemma AcceptedIffWithinLimits(config: Config, f: Flat, request: Request, bodyBytes: nat, now: nat)
    requires WellFormed(f)
    ensures
      var w, error := f.waiting + [Entry(f, request, bodyBytes, now)], EnqueueError(config, f, request, bodyBytes);
      && (error == Some(DepthLimit) <==> |w| > config.maxDepth)
      && (error == Some(ByteLimit) <==> |w| <= config.maxDepth && SumBytes(w) > config.maxBytes)
      && (error == Some(Duplicate(request.id)) <==> |w| <= config.maxDepth && SumBytes(w) <= config.maxBytes && !IdsDistinct(w))
      && (error.None? <==> |w| <= config.maxDepth && SumBytes(w) <= config.maxBytes && IdsDistinct(w))
  {
    hide KeySet, SequencesIncrease;
    var q := Entry(f, request, bodyBytes, now);
    var w := f.waiting + [q];
    assert w[..|f.waiting|] == f.waiting && w[|f.waiting|] == q;
    assert forall i :: 0 <= i < |f.waiting| ==> w[i] == f.waiting[i];
    if request.id in Ids(f.waiting) {
      var i :| 0 <= i < |f.waiting| && f.waiting[i].request.id == request.id;
      assert w[i].request.id == w[|f.waiting|].request.id;
    }
  }

  lemma RemoveKeepsOthers(w: seq<Queued>, i: nat, x: Queued)
    requires i < |w| && SequencesIncrease(w)
    ensures x in Remove(w, i) <==> x in w && x != w[i]
  {
    var r := Remove(w, i);
    assert forall j :: 0 <= j < |r| ==> r[j] == w[if j < i then j else j + 1];
    if x in w && x != w[i] {
      var j :| 0 <= j < |w| && w[j] == x;
      assert r[if j < i then j else j - 1] == x;
    }
  }

  lemma CancelRemovesOne(config: Config, f: Flat, id: RequestId, x: Queued)
    requires config.Valid() && WellFormed(f)
    ensures x in Next(config, f, Cancel(id)).waiting <==> x in f.waiting && x.request.id != id
  {
    hide KeySet;
    if id in Ids(f.waiting) {
      var i :| 0 <= i < |f.waiting| && f.waiting[i].request.id == id && Cancelled(f, id) == Without(f, i);
      RemoveKeepsOthers(f.waiting, i, x);
    }
  }

  lemma PopRemovesTaken(config: Config, f: Flat, now: nat, x: Queued)
    requires config.Valid() && WellFormed(f) && f.waiting != []
    ensures x in Next(config, f, Pop(now)).waiting <==> x in f.waiting && x != f.waiting[Choice(config, f, now)]
  {
    hide Score, KeySet, IdsDistinct;
    var i := Choice(config, f, now);
    ChargedWellFormed(config, f, i);
    RemoveKeepsOthers(f.waiting, i, x);
  }

  /** Every operation brings in or takes out exactly the request it is about, and no other request is lost, added
      or changed. */
  lemma OneRequestMoves(config: Config, f: Flat, e: Event, x: Queued)
    requires config.Valid() && WellFormed(f)
    ensures
      var f' := Next(config, f, e);
      match e
      case Enqueue(request, bodyBytes, _, _, _, now) =>
        x in f'.waiting <==>
          || x in f.waiting
          || (EnqueueError(config, f, request, bodyBytes).None? &&
              x == Queued(request, now, SaturatingAdd(now, request.deadline), bodyBytes, f.sequence + 1))
      case Cancel(id) => x in f'.waiting <==> x in f.waiting && x.request.id != id
      case Pop(now) => x in f'.waiting <==> x in f.waiting && x != f.waiting[Choice(config, f, now)]
  {
    match e
    case Enqueue(request, bodyBytes, _, _, _, _) =>
      hide WellFormed, EnqueueError, SaturatingAdd, Importance;
      if EnqueueError(config, f, request, bodyBytes).None? {
        hide Next;
        AcceptedNext(config, f, e);
      }
    case Cancel(id) =>
      hide *;
      CancelRemovesOne(config, f, id, x);
    case Pop(now) =>
      if f.waiting != [] {
        hide *;
        PopRemovesTaken(config, f, now, x);
      }
  }

  // --------------------------------------------------------------------------- work in estimated units

  /** Estimated units of the requests popped from a queue in a run. */
  ghost function TotalUnits(config: Config, f: Flat, es: seq<Event>, k: QueueKey): real
    requires config.Valid() && WellFormed(f)
    decreases |es|
  {
    if es == [] then 0.0
    else
      (if ServedKey(config, f, es[0]) == Some(k) then f.waiting[Choice(config, f, es[0].now)].request.units else 0.0) +
      TotalUnits(config, Next(config, f, es[0]), es[1..], k)
  }

  ghost function PopsOf(config: Config, f: Flat, es: seq<Event>, k: QueueKey): nat
    requires config.Valid() && WellFormed(f)
    decreases |es|
  {
    if es == [] then 0 else (if ServedKey(config, f, es[0]) == Some(k) then 1 else 0) + PopsOf(config, Next(config, f, es[0]), es[1..], k)
  }

  ghost predicate AtLeastOneUnit(f: Flat) { forall i :: 0 <= i < |f.waiting| ==> f.waiting[i].request.units >= 1.0 }
  ghost predicate AtMostOneUnit(f: Flat) { forall i :: 0 <= i < |f.waiting| ==> f.waiting[i].request.units <= 1.0 }

  ghost predicate Throughout(config: Config, f: Flat, es: seq<Event>, large: bool)
    requires config.Valid() && WellFormed(f)
    decreases |es|
  {
    (if large then AtLeastOneUnit(f) else AtMostOneUnit(f)) && (es != [] ==> Throughout(config, Next(config, f, es[0]), es[1..], large))
  }

  /** Work is what the requests are estimated at: their units where these are at least one, and one each where they
      are not more. */
  lemma {:induction false} WorkIsEstimated(config: Config, f: Flat, es: seq<Event>, k: QueueKey)
    requires config.Valid() && WellFormed(f)
    ensures Throughout(config, f, es, true) ==> TotalWork(config, f, es, k) == TotalUnits(config, f, es, k)
    ensures Throughout(config, f, es, false) ==> TotalWork(config, f, es, k) == PopsOf(config, f, es, k) as real
    decreases |es|
  {
    if es != [] {
      WorkOfOne(config, f, es[0], k);
      hide Next, WellFormed, WorkServed, AtLeastOneUnit, AtMostOneUnit;
      WorkIsEstimated(config, Next(config, f, es[0]), es[1..], k);
    }
  }

  lemma WorkOfOne(config: Config, f: Flat, e: Event, k: QueueKey)
    requires config.Valid() && WellFormed(f)
    ensures ServedKey(config, f, e) != Some(k) ==> WorkServed(config, f, e, k) == 0.0
    ensures ServedKey(config, f, e) == Some(k) && AtLeastOneUnit(f) ==>
              e.Pop? && f.waiting != [] && WorkServed(config, f, e, k) == f.waiting[Choice(config, f, e.now)].request.units
    ensures ServedKey(config, f, e) == Some(k) && AtMostOneUnit(f) ==> WorkServed(config, f, e, k) == 1.0
  {
    hide Score, KeySet, SequencesIncrease, IdsDistinct;
  }
}
