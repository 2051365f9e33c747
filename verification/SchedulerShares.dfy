/** How two backlogged queues of any weights share service until `served` is first renormalised: in proportion
    to the squares of their weights, because the weight both multiplies the score and divides the charge. */
module SchedulerShares {
  import opened Sums
  import opened SchedulerModel
  import opened SchedulerRuns

  /** What `u` units of work served to a queue of weight `mine` move it ahead of one of weight `other`. */
  function Pull(u: real, mine: real, other: real): real
    requires mine >= 1.0
  {
    other * (u / mine)
  }

  lemma PullAdds(u: real, v: real, mine: real, other: real)
    requires mine >= 1.0
    ensures Pull(u + v, mine, other) == Pull(u, mine, other) + Pull(v, mine, other)
    ensures Pull(0.0, mine, other) == 0.0
  {
    assert (u + v) / mine == u / mine + v / mine;
  }

  lemma PullGrows(u: real, v: real, mine: real, other: real)
    requires mine >= 1.0 && other >= 1.0 && 0.0 <= u <= v
    ensures 0.0 <= Pull(u, mine, other) <= Pull(v, mine, other)
  {
    var x, y := u / mine, v / mine;
    assert x * mine == u && y * mine == v;
    assert 0.0 <= x && (y - x) * mine >= 0.0;
    assert y - x >= 0.0;
    assert other * x >= 0.0 && other * (y - x) >= 0.0;
  }

  /** What an event takes off the served amount of every queue when it renormalises. */
  ghost function TakenOff(config: Config, f: Flat, e: Event): (m: real)
    requires config.Valid() && WellFormed(f)
    ensures m >= 0.0
  {
    if e.Pop? && f.waiting != [] then
      var i := Choice(config, f, e.now);
      KeyHasCredit(f, i);
      var k := f.waiting[i].Key();
      var credit := f.credit[k := Charge(f.credit[k], f.waiting[i].request.Work())];
      assert k in credit;
      var m := MinServed(credit);
      if m > config.quantum * 1000.0 then m else 0.0
    else 0.0
  }

  ghost function TotalTaken(config: Config, f: Flat, es: seq<Event>): (m: real)
    requires config.Valid() && WellFormed(f)
    ensures m >= 0.0
    decreases |es|
  {
    if es == [] then 0.0 else TakenOff(config, f, es[0]) + TotalTaken(config, Next(config, f, es[0]), es[1..])
  }

  function Lowered(c: Credit, m: real): Credit { c.(served := c.served - m) }

  lemma ChargedCredit(config: Config, f: Flat, e: Event, k: QueueKey)
    requires config.Valid() && WellFormed(f)
    requires k in f.credit && k in Next(config, f, e).credit
    ensures
      var charged := if ServedKey(config, f, e) == Some(k) then Charge(f.credit[k], WorkServed(config, f, e, k)) else f.credit[k];
      Next(config, f, e).credit[k] == Lowered(charged, TakenOff(config, f, e))
  {
    hide Score, KeySet, SequencesIncrease, IdsDistinct, Charge;
    if e.Pop? && f.waiting != [] {
      var i := Choice(config, f, e.now);
      KeyHasCredit(f, i);
      ChargedWellFormed(config, f, i);
    }
  }

  /** Renormalising shifts two queues of different weights against each other. */
  lemma LoweredShifts(config: Config, a: Credit, b: Credit, m: real)
    ensures Ahead(config, Lowered(a, m), Lowered(b, m)) == Ahead(config, a, b) - Times(m, b.weight - a.weight)
  {
    var q := config.quantum;
    assert b.weight * (a.served - m + q) == b.weight * (a.served + q) - b.weight * m;
    assert a.weight * (b.served - m + q) == a.weight * (b.served + q) - a.weight * m;
  }

  lemma ChargeMoves(config: Config, a: Credit, b: Credit, work: real)
    requires a.Valid() && b.Valid()
    ensures Ahead(config, Charge(a, work), b) == Ahead(config, a, b) + Pull(work, a.weight, b.weight)
    ensures Ahead(config, b, Charge(a, work)) == Ahead(config, b, a) - Pull(work, a.weight, b.weight)
  {
    var x := work / a.weight;
    assert b.weight * (a.served + x + config.quantum) == b.weight * (a.served + config.quantum) + b.weight * x;
  }

  lemma AheadStep(config: Config, f: Flat, e: Event, a: QueueKey, b: QueueKey)
    requires config.Valid() && WellFormed(f) && a != b
    requires a in f.credit && b in f.credit && a in Next(config, f, e).credit && b in Next(config, f, e).credit
    ensures
      var f', wa, wb := Next(config, f, e), f.credit[a].weight, f.credit[b].weight;
      && f'.credit[a].weight == wa >= 1.0 && f'.credit[b].weight == wb >= 1.0
      && Ahead(config, f'.credit[a], f'.credit[b]) == Ahead(config, f.credit[a], f.credit[b]) +
         Pull(WorkServed(config, f, e, a), wa, wb) - Pull(WorkServed(config, f, e, b), wb, wa) -
         Times(TakenOff(config, f, e), wb - wa)
  {
    hide Ahead, Pull, Times, Next, TakenOff, WorkServed, ServedKey, Charge, Score, KeySet, SequencesIncrease, IdsDistinct;
    ChargedCredit(config, f, e, a);
    ChargedCredit(config, f, e, b);
    NotServed(config, f, e, a);
    NotServed(config, f, e, b);
    ChargedAndLowered(config, f.credit[a], f.credit[b], WorkServed(config, f, e, a), WorkServed(config, f, e, b),
                      ServedKey(config, f, e) == Some(a), ServedKey(config, f, e) == Some(b), TakenOff(config, f, e));
  }

  lemma ChargedAndLowered(config: Config, a: Credit, b: Credit, workA: real, workB: real, servesA: bool, servesB: bool, m: real)
    requires a.Valid() && b.Valid() && !(servesA && servesB) && (!servesA ==> workA == 0.0) && (!servesB ==> workB == 0.0)
    ensures
      var a', b' := Lowered(if servesA then Charge(a, workA) else a, m), Lowered(if servesB then Charge(b, workB) else b, m);
      && a'.weight == a.weight && b'.weight == b.weight
      && Ahead(config, a', b') == Ahead(config, a, b) + Pull(workA, a.weight, b.weight) - Pull(workB, b.weight, a.weight) -
         Times(m, b.weight - a.weight)
  {
    hide Ahead, Pull, Times;
    PullAdds(0.0, 0.0, a.weight, b.weight);
    PullAdds(0.0, 0.0, b.weight, a.weight);
    ChargeMoves(config, a, b, workA);
    ChargeMoves(config, b, a, workB);
    LoweredShifts(config, if servesA then Charge(a, workA) else a, if servesB then Charge(b, workB) else b, m);
  }

  /** Serving, before any renormalisation, keeps the lead within bounds that allow one largest request. */
  lemma ServingStaysBounded(config: Config, f: Flat, e: Event, a: QueueKey, b: QueueKey, enqueuedNs: nat, deadlineNs: nat,
                            largest: real, lo: real, hi: real)
    requires config.Valid() && WellFormed(f) && a != b && Twins(f, a, b, enqueuedNs, deadlineNs, largest)
    requires f.credit[a].weight >= 1.0 && f.credit[b].weight >= 1.0
    requires lo <= Ahead(config, f.credit[a], f.credit[b]) <= hi
    requires Pull(largest, f.credit[a].weight, f.credit[b].weight) <= hi && lo <= -Pull(largest, f.credit[b].weight, f.credit[a].weight)
    ensures
      var wa, wb := f.credit[a].weight, f.credit[b].weight;
      lo <= Ahead(config, f.credit[a], f.credit[b]) + Pull(WorkServed(config, f, e, a), wa, wb) -
            Pull(WorkServed(config, f, e, b), wb, wa) <= hi
  {
    hide Ahead, Pull, WorkServed, Score, KeySet, SequencesIncrease, IdsDistinct;
    var wa, wb := f.credit[a].weight, f.credit[b].weight;
    PullAdds(0.0, 0.0, wa, wb);
    PullAdds(0.0, 0.0, wb, wa);
    NotServed(config, f, e, a);
    NotServed(config, f, e, b);
    if ServedKey(config, f, e) == Some(a) {
      ServesTheOneNotAhead(config, f, e.now, a, b, enqueuedNs, deadlineNs, largest);
      PullGrows(WorkServed(config, f, e, a), largest, wa, wb);
    } else if ServedKey(config, f, e) == Some(b) {
      ServesTheOneNotAhead(config, f, e.now, b, a, enqueuedNs, deadlineNs, largest);
      AheadSwaps(config, f.credit[a], f.credit[b]);
      PullGrows(WorkServed(config, f, e, b), largest, wb, wa);
    }
  }

  lemma AheadSwaps(config: Config, a: Credit, b: Credit)
    ensures Ahead(config, b, a) == -Ahead(config, a, b)
  {
  }

  lemma NotServed(config: Config, f: Flat, e: Event, k: QueueKey)
    requires config.Valid() && WellFormed(f)
    ensures ServedKey(config, f, e) != Some(k) ==> WorkServed(config, f, e, k) == 0.0
  {
  }

  /** How far renormalisation by `m` in all can shift a queue of weight `other` past one of weight `mine`. */
  function Shift(m: real, mine: real, other: real): real { Times(m, Max(0.0, other - mine)) }

  lemma ShiftFacts(m: real, n: real, mine: real, other: real)
    requires m >= 0.0 && n >= 0.0
    ensures Shift(m + n, mine, other) == Shift(m, mine, other) + Shift(n, mine, other)
    ensures Shift(m, mine, other) >= 0.0 && Shift(0.0, mine, other) == 0.0
    ensures Times(m, other - mine) == Shift(m, mine, other) - Shift(m, other, mine)
  {
    var d := Max(0.0, other - mine);
    assert (m + n) * d == m * d + n * d;
    assert m * d >= 0.0;
  }

  lemma {:induction false} AheadBounded(config: Config, f: Flat, es: seq<Event>, a: QueueKey, b: QueueKey, enqueuedNs: nat,
                                        deadlineNs: nat, largest: real, lo: real, hi: real)
    requires config.Valid() && WellFormed(f) && a != b
    requires TwinsThroughout(config, f, es, a, b, enqueuedNs, deadlineNs, largest)
    requires f.credit[a].weight >= 1.0 && f.credit[b].weight >= 1.0
    requires lo <= Ahead(config, f.credit[a], f.credit[b]) <= hi
    requires Pull(largest, f.credit[a].weight, f.credit[b].weight) <= hi && lo <= -Pull(largest, f.credit[b].weight, f.credit[a].weight)
    ensures
      var wa, wb, taken := f.credit[a].weight, f.credit[b].weight, TotalTaken(config, f, es);
      lo - Shift(taken, wb, wa) <= Ahead(config, f.credit[a], f.credit[b]) + Pull(TotalWork(config, f, es, a), wa, wb) -
            Pull(TotalWork(config, f, es, b), wb, wa) <= hi + Shift(taken, wa, wb)
    decreases |es|
  {
    hide Ahead, Pull, Times, Shift, Next, TakenOff, WorkServed, KeySet, SequencesIncrease, IdsDistinct;
    var wa, wb := f.credit[a].weight, f.credit[b].weight;
    if es == [] {
      PullAdds(0.0, 0.0, wa, wb);
      PullAdds(0.0, 0.0, wb, wa);
      ShiftFacts(0.0, 0.0, wa, wb);
      ShiftFacts(0.0, 0.0, wb, wa);
    } else {
      var e, f' := es[0], Next(config, f, es[0]);
      var t, rest := TakenOff(config, f, e), TotalTaken(config, f', es[1..]);
      AheadStep(config, f, e, a, b);
      ServingStaysBounded(config, f, e, a, b, enqueuedNs, deadlineNs, largest, lo, hi);
      ShiftFacts(t, rest, wa, wb);
      ShiftFacts(t, rest, wb, wa);
      AheadBounded(config, f', es[1..], a, b, enqueuedNs, deadlineNs, largest, lo - Shift(t, wa, wb), hi + Shift(t, wb, wa));
      PullAdds(WorkServed(config, f, e, a), TotalWork(config, f', es[1..], a), wa, wb);
      PullAdds(WorkServed(config, f, e, b), TotalWork(config, f', es[1..], b), wb, wa);
    }
  }

  lemma StartsLevel(config: Config, a: Credit, b: Credit)
    requires a.served == 0.0 == b.served
    ensures Ahead(config, a, b) == Times(config.quantum, b.weight - a.weight)
  {
  }

  /** Work `ta` and `tb` is in the ratio of the squared weights, up to a term in which neither occurs and
      which grows only with the amount `taken` off by renormalisation. With much taken off the term outweighs
      the work, and `SchedulerLongRun` says how the queues share. */
  predicate SharedBySquares(ta: real, tb: real, wa: real, wb: real, q: real, largest: real, taken: real)
  {
    var gap := Times(Times(wb, wb), ta) - Times(Times(wa, wa), tb);
    && gap <= Max(0.0, Times(Times(wb, wb), largest) + Times(Times(wa, wb), Times(q, wa - wb))) + Times(Times(wa, wb), Shift(taken, wa, wb))
    && -gap <= Max(0.0, Times(Times(wa, wa), largest) + Times(Times(wa, wb), Times(q, wb - wa))) + Times(Times(wa, wb), Shift(taken, wb, wa))
  }

  /** Two queues of weights wa and wb that start empty, fill up before either is served, and then both stay
      occupied by equally old and equally urgent requests: the work popped from them stays in the ratio of
      wa squared to wb squared, up to a constant, until `served` is first renormalised; from then on the term
      grows with every renormalisation. */
  lemma SquareLaw(config: Config, f: Flat, filling: seq<Event>, serving: seq<Event>, a: QueueKey, b: QueueKey,
                  enqueuedNs: nat, deadlineNs: nat, largest: real)
    requires config.Valid() && WellFormed(f) && a != b && a !in f.credit && b !in f.credit && largest >= 0.0
    requires NeverServed(config, f, filling, a) && NeverServed(config, f, filling, b)
    requires TwinsThroughout(config, Run(config, f, filling), serving, a, b, enqueuedNs, deadlineNs, largest)
    ensures
      var start := Run(config, f, filling);
      SharedBySquares(TotalWork(config, start, serving, a), TotalWork(config, start, serving, b), start.credit[a].weight,
                      start.credit[b].weight, config.quantum, largest, TotalTaken(config, start, serving))
  {
    hide NeverServed, TwinsThroughout, TotalTaken, TotalWork, Run, KeySet, SequencesIncrease, IdsDistinct, SharedBySquares, Shift;
    var start := Run(config, f, filling);
    UnservedRun(config, f, filling, a);
    UnservedRun(config, f, filling, b);
    TwinsHaveCredit(config, start, serving, a, b, enqueuedNs, deadlineNs, largest);
    var ca, cb := start.credit[a], start.credit[b];
    var wa, wb, q := ca.weight, cb.weight, config.quantum;
    var ahead := Times(q, wb - wa);
    StartsLevel(config, ca, cb);
    var lo, hi := Min(ahead, -Pull(largest, wb, wa)), Max(ahead, Pull(largest, wa, wb));
    hide Ahead, Pull, Times;
    AheadBounded(config, start, serving, a, b, enqueuedNs, deadlineNs, largest, lo, hi);
    InSquares(TotalWork(config, start, serving, a), TotalWork(config, start, serving, b), wa, wb, q, largest, TotalTaken(config, start, serving));
  }

  lemma TwinsHaveCredit(config: Config, f: Flat, es: seq<Event>, a: QueueKey, b: QueueKey, enqueuedNs: nat, deadlineNs: nat, largest: real)
    requires config.Valid() && WellFormed(f) && TwinsThroughout(config, f, es, a, b, enqueuedNs, deadlineNs, largest)
    ensures a in f.credit && b in f.credit && f.credit[a].Valid() && f.credit[b].Valid()
  {
  }

  lemma PullInSquares(u: real, mine: real, other: real)
    requires mine >= 1.0
    ensures Times(Times(mine, other), Pull(u, mine, other)) == Times(Times(other, other), u)
  {
    var x := u / mine;
    assert mine * x == u;
    assert (mine * other) * (other * x) == (other * other) * (mine * x);
  }

  lemma TimesFacts(wa: real, wb: real, q: real)
    requires wa >= 1.0 && wb >= 1.0
    ensures Times(wa, wb) == Times(wb, wa) > 0.0 && Times(q, wa - wb) == -Times(q, wb - wa)
  {
  }

  /** The bound on the lead, multiplied out. */
  lemma InSquares(ta: real, tb: real, wa: real, wb: real, q: real, largest: real, taken: real)
    requires wa >= 1.0 && wb >= 1.0 && taken >= 0.0
    requires Times(q, wb - wa) + Pull(ta, wa, wb) - Pull(tb, wb, wa) <= Max(Times(q, wb - wa), Pull(largest, wa, wb)) + Shift(taken, wa, wb)
    requires Times(q, wb - wa) + Pull(ta, wa, wb) - Pull(tb, wb, wa) >= Min(Times(q, wb - wa), -Pull(largest, wb, wa)) - Shift(taken, wb, wa)
    ensures SharedBySquares(ta, tb, wa, wb, q, largest, taken)
  {
    hide Pull, Times, Shift;
    PullInSquares(ta, wa, wb);
    PullInSquares(tb, wb, wa);
    PullInSquares(largest, wa, wb);
    PullInSquares(largest, wb, wa);
    TimesFacts(wa, wb, q);
    MultipliedOut(Times(wa, wb), Pull(ta, wa, wb), Pull(tb, wb, wa), Pull(largest, wa, wb), Pull(largest, wb, wa),
                  Times(q, wb - wa), Times(q, wa - wb), Shift(taken, wa, wb), Shift(taken, wb, wa));
  }

  lemma MultipliedOut(k: real, pa: real, pb: real, la: real, lb: real, e: real, e': real, up: real, down: real)
    requires k > 0.0 && e' == -e
    requires e + pa - pb <= Max(e, la) + up && e + pa - pb >= Min(e, -lb) - down
    ensures Times(k, pa) - Times(k, pb) <= Max(0.0, Times(k, la) + Times(k, e')) + Times(k, up)
    ensures Times(k, pb) - Times(k, pa) <= Max(0.0, Times(k, lb) + Times(k, e)) + Times(k, down)
  {
    MultiplyOut(k, pa - pb - up, la + e');
    MultiplyOut(k, pb - pa - down, lb + e);
    Spread(k, pa - pb, -up);
    Spread(k, pa, -pb);
    Spread(k, pb - pa, -down);
    Spread(k, pb, -pa);
    Spread(k, 0.0, up);
    Spread(k, 0.0, down);
    Spread(k, 0.0, pa);
    Spread(k, 0.0, pb);
    Spread(k, la, e');
    Spread(k, lb, e);
    assert pa + -pb == pa - pb && pb + -pa == pb - pa;
    assert (pa - pb) + -up == pa - pb - up && (pb - pa) + -down == pb - pa - down;
  }

  lemma Spread(k: real, x: real, y: real)
    ensures k * (x + y) == k * x + k * y
    ensures k * -y == -(k * y)
  {
  }

  lemma MultiplyOut(k: real, x: real, bound: real)
    requires k > 0.0 && x <= Max(0.0, bound)
    ensures k * x <= Max(0.0, k * bound)
  {
    assert x <= 0.0 ==> k * x <= 0.0;
    assert x <= bound ==> k * (bound - x) >= 0.0;
  }
}
