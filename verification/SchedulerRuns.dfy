/** What the scheduler guarantees over whole runs: bounded overtaking, service within a counted
    number of pops, and fairness between two equally weighted bursts. */
module SchedulerRuns {
  import opened Sums
  import opened SchedulerModel

  ghost function Run(config: Config, f: Flat, es: seq<Event>): (f': Flat)
    requires config.Valid() && WellFormed(f)
    ensures WellFormed(f')
    decreases |es|
  {
    if es == [] then f else Run(config, Next(config, f, es[0]), es[1..])
  }

  // -------------------------------------------------------------------- assumptions about the run

  /** Enqueue clocks are read under the lock and never go back; `t` is the latest reading so far. A pop
      reads the clock before it takes the lock, so nothing is asked of its reading. */
  ghost predicate ClockOrdered(t: nat, es: seq<Event>)
    decreases |es|
  {
    es == [] ||
    match es[0]
    case Enqueue(_, _, _, _, _, now) => t <= now && ClockOrdered(now, es[1..])
    case Cancel(_) => ClockOrdered(t, es[1..])
    case Pop(_) => ClockOrdered(t, es[1..])
  }

  function ClockAfter(t: nat, e: Event): nat
  {
    if e.Enqueue? then e.now else t
  }

  ghost predicate WeightAtMost(e: Event, bound: real)
  {
    e.Enqueue? ==> Weight(e.classWeight, e.tenantWeight, e.appWeight) <= bound
  }

  ghost predicate WeightsAtMost(es: seq<Event>, bound: real)
  {
    forall i :: 0 <= i < |es| ==> WeightAtMost(es[i], bound)
  }

  // ------------------------------------------------------------------------- what every step keeps

  ghost predicate Timely(f: Flat, t: nat, bound: real)
  {
    && WellFormed(f)
    && (forall i, j :: 0 <= i < j < |f.waiting| ==> f.waiting[i].enqueuedNs <= f.waiting[j].enqueuedNs)
    && (forall i :: 0 <= i < |f.waiting| ==> f.waiting[i].enqueuedNs <= t)
    && (forall k :: k in f.credit ==> f.credit[k].weight <= bound)
  }

  lemma EmptyTimely(bound: real)
    ensures WellFormed(EMPTY) && Timely(EMPTY, 0, bound)
  {
  }

  lemma WithoutTimely(f: Flat, i: nat, t: nat, bound: real)
    requires Timely(f, t, bound) && i < |f.waiting|
    ensures Timely(Without(f, i), t, bound)
  {
    RemoveAt(f.waiting, i);
    WithoutWellFormed(f, i);
  }

  lemma EnqueuedTimely(f: Flat, request: Request, bodyBytes: nat, weight: real, now: nat, t: nat, bound: real)
    requires Timely(f, t, bound) && request.id !in Ids(f.waiting) && 1.0 <= weight <= bound && t <= now
    ensures Timely(Enqueued(f, request, bodyBytes, weight, now), now, bound)
  {
    EnqueuedWellFormed(f, request, bodyBytes, weight, now);
    hide WellFormed;
  }

  lemma NextTimely(config: Config, f: Flat, e: Event, t: nat, bound: real)
    requires config.Valid() && Timely(f, t, bound) && WeightAtMost(e, bound)
    requires e.Enqueue? ==> t <= e.now
    ensures Timely(Next(config, f, e), ClockAfter(t, e), bound)
  {
    hide WellFormed, Weight;
    match e
    case Enqueue(request, bodyBytes, cw, tw, aw, now) =>
      if EnqueueError(config, f, request, bodyBytes).None? {
        EnqueuedTimely(f, request, bodyBytes, Weight(cw, tw, aw), now, t, bound);
      }
    case Cancel(id) =>
      if id in Ids(f.waiting) {
        var i :| 0 <= i < |f.waiting| && f.waiting[i].request.id == id && Cancelled(f, id) == Without(f, i);
        WithoutTimely(f, i, t, bound);
      }
    case Pop(now) =>
      if f.waiting != [] { PoppedTimely(config, f, Choice(config, f, now), t, bound); }
  }

  lemma PoppedTimely(config: Config, f: Flat, i: nat, t: nat, bound: real)
    requires config.Valid() && Timely(f, t, bound) && i < |f.waiting|
    ensures Timely(Popped(config, f, i), t, bound)
  {
    hide Charged;
    ChargedWellFormed(config, f, i);
    WithoutTimely(Charged(config, f, i), i, t, bound);
  }

  lemma {:induction false} RunTimely(config: Config, f: Flat, es: seq<Event>, t: nat, bound: real) returns (t': nat)
    requires config.Valid() && Timely(f, t, bound) && ClockOrdered(t, es) && WeightsAtMost(es, bound)
    ensures Timely(Run(config, f, es), t', bound)
    ensures forall later: seq<Event> :: ClockOrdered(t, es + later) ==> ClockOrdered(t', later)
    decreases |es|
  {
    hide Next, WellFormed;
    if es == [] {
      t' := t;
      assert forall later: seq<Event> :: es + later == later;
    } else {
      NextTimely(config, f, es[0], t, bound);
      t' := RunTimely(config, Next(config, f, es[0]), es[1..], ClockAfter(t, es[0]), bound);
      forall later: seq<Event> | ClockOrdered(t, es + later) ensures ClockOrdered(t', later) {
        assert (es + later)[1..] == es[1..] + later;
      }
    }
  }

  // ---------------------------------------------------------------------------- bounded overtaking

  /** The longest head start, in nanoseconds, that any later request can make up. */
  function OvertakeWindow(config: Config, bound: real): real
  {
    (bound + 1000000.0) * config.AgingNs()
  }

  lemma {:induction false} HeadOf(w: seq<Queued>, i: nat) returns (h: nat)
    requires i < |w|
    ensures h <= i && IsHead(w, h) && w[h].Key() == w[i].Key()
  {
    if IsHead(w, i) {
      h := i;
    } else {
      var j :| 0 <= j < i && w[j].Key() == w[i].Key();
      h := HeadOf(w, j);
    }
  }

  function Earlier(x: nat, y: nat): nat { if x <= y then x else y }

  /** The older of two requests leads in age by the time between them that the reading has seen. */
  lemma AgeGap(config: Config, early: Queued, late: Queued, now: nat)
    requires early.enqueuedNs <= Earlier(now, late.enqueuedNs)
    ensures (Age(config, early, now) - Age(config, late, now)) * config.AgingNs() ==
            (Earlier(now, late.enqueuedNs) - early.enqueuedNs) as real
  {
    var a := config.AgingNs();
    var e, l := (now - early.enqueuedNs) as real, SaturatingSub(now, late.enqueuedNs) as real;
    assert e / a * a == e && l / a * a == l;
    assert e - l == (Earlier(now, late.enqueuedNs) - early.enqueuedNs) as real;
  }

  lemma StrictlyScaled(x: real, y: real, k: real)
    requires x < y && k > 0.0
    ensures x * k < y * k
  {
  }

  /** A request whose score is at least that of another is less than the window younger. */
  lemma ScoreLimitsGap(config: Config, early: Queued, late: Queued, now: nat, ce: Credit, cl: Credit, bound: real)
    requires config.Valid() && ce.Valid() && cl.Valid() && cl.weight <= bound
    requires early.enqueuedNs <= Earlier(now, late.enqueuedNs)
    requires Score(config, ce, early, now) <= Score(config, cl, late, now)
    ensures (Earlier(now, late.enqueuedNs) - early.enqueuedNs) as real < OvertakeWindow(config, bound)
  {
    assert config.AgingNs() > 0.0;
    hide Age, Fair, DeadlineBoost, Config.AgingNs;
    ScoreBounds(config, ce, early, now);
    ScoreBounds(config, cl, late, now);
    AgeGap(config, early, late, now);
    StrictlyScaled(Age(config, early, now) - Age(config, late, now), bound + OVERDUE_BOOST, config.AgingNs());
  }

  /** One pop, at any clock reading: whichever request is taken was enqueued less than a window after
      every request that waits, wherever that one stands in its queue, counting the time up to the
      reading. */
  lemma NoOvertaking(config: Config, f: Flat, now: nat, t: nat, bound: real, i: nat, x: nat)
    requires config.Valid() && Timely(f, t, bound) && bound >= 1.0
    requires Selected(config, f, now, i) && x < |f.waiting|
    ensures (Earlier(now, f.waiting[i].enqueuedNs) - f.waiting[x].enqueuedNs) as real < OvertakeWindow(config, bound)
  {
    var h := HeadOf(f.waiting, x);
    assert f.waiting[h].enqueuedNs <= f.waiting[x].enqueuedNs;
    assert (bound + OVERDUE_BOOST) * config.AgingNs() > 0.0;
    if f.waiting[h].enqueuedNs <= Earlier(now, f.waiting[i].enqueuedNs) && h != i {
      assert Beats(config, f, now, i, h);
      KeyHasCredit(f, i);
      KeyHasCredit(f, h);
      ScoreLimitsGap(config, f.waiting[h], f.waiting[i], now, f.credit[f.waiting[h].Key()],
                     f.credit[f.waiting[i].Key()], bound);
    }
  }

  lemma RemoveMembers(w: seq<Queued>, i: nat)
    requires i < |w| && SequencesIncrease(w)
    ensures |Remove(w, i)| == |w| - 1
    ensures forall j :: 0 <= j < |w| && j != i ==> w[j] in Remove(w, i)
    ensures forall q :: q in Remove(w, i) ==> q in w && q.sequence != w[i].sequence
  {
    RemoveAt(w, i);
    var w' := Remove(w, i);
    forall j | 0 <= j < |w| && j != i ensures w[j] in w' {
      assert w'[if j < i then j else j - 1] == w[j];
    }
    forall q | q in w' ensures q in w && q.sequence != w[i].sequence {
      var j :| 0 <= j < |w'| && w'[j] == q;
      assert w[if j < i then j else j + 1] == q;
    }
  }

  /** A pop of a non-empty list takes out exactly the selected entry. */
  lemma PopTakes(config: Config, f: Flat, now: nat) returns (i: nat)
    requires config.Valid() && WellFormed(f) && f.waiting != []
    ensures i == Choice(config, f, now) && i < |f.waiting| && Selected(config, f, now, i)
    ensures Next(config, f, Pop(now)).waiting == Remove(f.waiting, i)
    ensures Next(config, f, Pop(now)).sequence == f.sequence
    ensures |Remove(f.waiting, i)| == |f.waiting| - 1
    ensures forall j :: 0 <= j < |f.waiting| && j != i ==> f.waiting[j] in Remove(f.waiting, i)
    ensures forall q :: q in Remove(f.waiting, i) ==> q in f.waiting && q.sequence != f.waiting[i].sequence
  {
    hide Score, KeySet, Renormalise;
    i := Choice(config, f, now);
    assert IsHead(f.waiting, i);
    ChargedWellFormed(config, f, i);
    RemoveMembers(f.waiting, i);
  }

  /** Every run: after any events, the next pop never takes a request enqueued a window or more after
      one that stays queued. A pop whose reading is stale, earlier than the enqueue of what it takes, is
      covered too: then the window counts up to the reading. */
  lemma BoundedOvertaking(config: Config, es: seq<Event>, now: nat, bound: real, x: Queued, y: Queued)
    requires config.Valid() && bound >= 1.0
    requires ClockOrdered(0, es) && WeightsAtMost(es, bound)
    requires x in Run(config, EMPTY, es).waiting && y in Run(config, EMPTY, es).waiting
    requires y !in Next(config, Run(config, EMPTY, es), Pop(now)).waiting
    ensures (Earlier(now, y.enqueuedNs) - x.enqueuedNs) as real < OvertakeWindow(config, bound)
  {
    EmptyTimely(bound);
    hide Next, WellFormed, Selected, OvertakeWindow;
    var t := RunTimely(config, EMPTY, es, 0, bound);
    var f := Run(config, EMPTY, es);
    var i := PopTakes(config, f, now);
    var xi :| 0 <= xi < |f.waiting| && f.waiting[xi] == x;
    var yi :| 0 <= yi < |f.waiting| && f.waiting[yi] == y;
    assert yi == i;
    NoOvertaking(config, f, now, t, bound, i, xi);
  }

  lemma {:induction false} ClockPrefix(t: nat, es: seq<Event>, later: seq<Event>)
    requires ClockOrdered(t, es + later)
    ensures ClockOrdered(t, es)
    decreases |es|
  {
    if es != [] {
      assert (es + later)[1..] == es[1..] + later;
      ClockPrefix(ClockAfter(t, es[0]), es[1..], later);
    }
  }

  // ------------------------------------------------------------------ service within counted pops

  /** A pop whose reading is at most `lag` behind the enqueue of what it takes. */
  ghost predicate Prompt(config: Config, f: Flat, e: Event, lag: nat)
    requires config.Valid() && WellFormed(f)
  {
    e.Pop? && (f.waiting != [] ==> f.waiting[Choice(config, f, e.now)].enqueuedNs <= e.now + lag)
  }

  ghost function PromptPops(config: Config, f: Flat, es: seq<Event>, lag: nat): nat
    requires config.Valid() && WellFormed(f)
    decreases |es|
  {
    if es == [] then 0 else PromptPops(config, Next(config, f, es[0]), es[1..], lag) + if Prompt(config, f, es[0], lag) then 1 else 0
  }

  /** A request that may still be taken before `x` by a prompt pop. */
  ghost predicate Rival(window: real, x: Queued, enqueuedNs: nat) { (enqueuedNs - x.enqueuedNs) as real < window }

  ghost function Rivals(window: real, x: Queued, w: seq<Queued>): nat
  {
    if w == [] then 0
    else
      var last := w[|w| - 1];
      Rivals(window, x, w[..|w| - 1]) + if last.sequence != x.sequence && Rival(window, x, last.enqueuedNs) then 1 else 0
  }

  /** The event brings a new rival of `x` into the queue. */
  ghost predicate BringsRival(config: Config, window: real, x: Queued, f: Flat, e: Event)
  {
    e.Enqueue? && EnqueueError(config, f, e.request, e.bodyBytes).None? && Rival(window, x, e.now)
  }

  /** Requests that are enqueued in the window of `x` while a run goes on. */
  ghost function RivalArrivals(config: Config, window: real, x: Queued, f: Flat, es: seq<Event>): nat
    requires config.Valid() && WellFormed(f)
    decreases |es|
  {
    if es == [] then 0
    else RivalArrivals(config, window, x, Next(config, f, es[0]), es[1..]) + if BringsRival(config, window, x, f, es[0]) then 1 else 0
  }

  lemma {:induction false} RivalsRemove(window: real, x: Queued, w: seq<Queued>, i: nat)
    requires i < |w|
    ensures Rivals(window, x, Remove(w, i)) ==
            Rivals(window, x, w) - if w[i].sequence != x.sequence && Rival(window, x, w[i].enqueuedNs) then 1 else 0
  {
    hide Rival;
    var front := w[..|w| - 1];
    if i == |w| - 1 {
      assert Remove(w, i) == front;
    } else {
      RivalsRemove(window, x, front, i);
      assert Remove(w, i)[..|w| - 2] == Remove(front, i);
      assert Remove(w, i)[|w| - 2] == w[|w| - 1];
    }
  }

  /** The overtaking window, longer by the lag that pops may have. */
  function LaggedWindow(config: Config, bound: real, lag: nat): real { OvertakeWindow(config, bound) + lag as real }

  lemma RivalsPop(config: Config, f: Flat, now: nat, t: nat, bound: real, lag: nat, x: Queued)
    requires config.Valid() && Timely(f, t, bound) && bound >= 1.0
    requires x in f.waiting && x in Next(config, f, Pop(now)).waiting
    ensures
      var window := LaggedWindow(config, bound, lag);
      Rivals(window, x, Next(config, f, Pop(now)).waiting) + (if Prompt(config, f, Pop(now), lag) then 1 else 0) <= Rivals(window, x, f.waiting)
  {
    hide Next, Selected, Rivals, OvertakeWindow, WellFormed;
    var i := PopTakes(config, f, now);
    RivalsRemove(LaggedWindow(config, bound, lag), x, f.waiting, i);
    var xi :| 0 <= xi < |f.waiting| && f.waiting[xi] == x;
    NoOvertaking(config, f, now, t, bound, i, xi);
  }

  lemma RivalsCancel(config: Config, f: Flat, id: RequestId, window: real, x: Queued)
    requires config.Valid() && WellFormed(f)
    ensures Rivals(window, x, Next(config, f, Cancel(id)).waiting) <= Rivals(window, x, f.waiting)
  {
    hide Rivals, Rival;
    if id in Ids(f.waiting) {
      var i :| 0 <= i < |f.waiting| && f.waiting[i].request.id == id && Cancelled(f, id) == Without(f, i);
      RivalsRemove(window, x, f.waiting, i);
    }
  }

  /** One step while `x` waits: a prompt pop uses up a rival, an enqueue adds at most the one it brings. */
  lemma RivalsStep(config: Config, f: Flat, e: Event, t: nat, bound: real, lag: nat, x: Queued)
    requires config.Valid() && Timely(f, t, bound) && bound >= 1.0
    requires x in f.waiting && x in Next(config, f, e).waiting
    ensures
      var window := LaggedWindow(config, bound, lag);
      Rivals(window, x, Next(config, f, e).waiting) + (if Prompt(config, f, e, lag) then 1 else 0) <=
      Rivals(window, x, f.waiting) + if BringsRival(config, window, x, f, e) then 1 else 0
  {
    hide WellFormed, Rival, EnqueueError, Cancelled, Popped, LaggedWindow;
    match e
    case Enqueue(request, bodyBytes, cw, tw, aw, now) =>
      assert (f.waiting + [Entry(f, request, bodyBytes, now)])[..|f.waiting|] == f.waiting;
    case Cancel(id) =>
      RivalsCancel(config, f, id, LaggedWindow(config, bound, lag), x);
    case Pop(now) =>
      RivalsPop(config, f, now, t, bound, lag, x);
  }

  /** A request that has left never comes back: later entries get later sequence numbers. */
  lemma NeverReturns(config: Config, f: Flat, e: Event, x: Queued)
    requires config.Valid() && WellFormed(f) && x.sequence <= f.sequence
    requires x in Next(config, f, e).waiting
    ensures x in f.waiting
  {
    hide Score, KeySet, Renormalise;
    var f' := Next(config, f, e);
    match e
    case Enqueue(_, _, _, _, _, _) =>
    case Cancel(id) =>
      if id in Ids(f.waiting) {
        var i :| 0 <= i < |f.waiting| && f.waiting[i].request.id == id && f' == Without(f, i);
        RemoveMembers(f.waiting, i);
      }
    case Pop(now) =>
      if f.waiting != [] { var i := PopTakes(config, f, now); }
  }

  lemma NextSequence(config: Config, f: Flat, e: Event)
    requires config.Valid() && WellFormed(f)
    ensures f.sequence <= Next(config, f, e).sequence
  {
    if e.Pop? && f.waiting != [] { var i := PopTakes(config, f, e.now); }
  }

  lemma {:induction false} StillWaiting(config: Config, f: Flat, es: seq<Event>, x: Queued)
    requires config.Valid() && WellFormed(f) && x.sequence <= f.sequence
    requires x in Run(config, f, es).waiting
    ensures x in f.waiting
    decreases |es|
  {
    if es != [] {
      NextSequence(config, f, es[0]);
      StillWaiting(config, Next(config, f, es[0]), es[1..], x);
      NeverReturns(config, f, es[0], x);
    }
  }

  lemma {:induction false} PopsBounded(config: Config, f: Flat, es: seq<Event>, t: nat, bound: real, lag: nat, x: Queued)
    requires config.Valid() && Timely(f, t, bound) && bound >= 1.0
    requires ClockOrdered(t, es) && WeightsAtMost(es, bound)
    requires x in f.waiting && x in Run(config, f, es).waiting
    ensures
      var window := LaggedWindow(config, bound, lag);
      PromptPops(config, f, es, lag) <= Rivals(window, x, f.waiting) + RivalArrivals(config, window, x, f, es)
    decreases |es|
  {
    hide Next, Rivals, BringsRival, KeySet, IdsDistinct, Prompt, LaggedWindow;
    if es != [] {
      var e, f' := es[0], Next(config, f, es[0]);
      NextTimely(config, f, e, t, bound);
      NextSequence(config, f, e);
      StillWaiting(config, f', es[1..], x);
      assert WeightAtMost(es[0], bound);
      RivalsStep(config, f, e, t, bound, lag, x);
      PopsBounded(config, f', es[1..], ClockAfter(t, e), bound, lag, x);
    }
  }

  lemma {:induction false} RivalsAtMost(window: real, x: Queued, w: seq<Queued>)
    requires SequencesIncrease(w)
    ensures Rivals(window, x, w) <= |w|
    ensures x in w ==> Rivals(window, x, w) <= |w| - 1
  {
    if w != [] { RivalsAtMost(window, x, w[..|w| - 1]); }
  }

  function PopCount(es: seq<Event>): nat
  {
    if es == [] then 0 else PopCount(es[1..]) + if es[0].Pop? then 1 else 0
  }

  /** Every pop reads the clock at most `lag` before the latest enqueue reading. */
  ghost predicate LagAtMost(t: nat, es: seq<Event>, lag: nat)
    decreases |es|
  {
    es != [] ==> (es[0].Pop? ==> t <= es[0].now + lag) && LagAtMost(ClockAfter(t, es[0]), es[1..], lag)
  }

  /** Where the lag is bounded, every pop is prompt. */
  lemma {:induction false} PopsArePrompt(config: Config, f: Flat, es: seq<Event>, t: nat, bound: real, lag: nat)
    requires config.Valid() && Timely(f, t, bound) && ClockOrdered(t, es) && WeightsAtMost(es, bound) && LagAtMost(t, es, lag)
    ensures PromptPops(config, f, es, lag) == PopCount(es)
    decreases |es|
  {
    hide Next, WellFormed;
    if es != [] {
      assert WeightAtMost(es[0], bound);
      NextTimely(config, f, es[0], t, bound);
      if es[0].Pop? && f.waiting != [] { var i := PopTakes(config, f, es[0].now); }
      PopsArePrompt(config, Next(config, f, es[0]), es[1..], ClockAfter(t, es[0]), bound, lag);
    }
  }

  lemma SequencesInOrder(f: Flat)
    requires WellFormed(f)
    ensures SequencesIncrease(f.waiting)
  {
  }

  /** The state and clock right after an accepted arrival. */
  lemma AfterArrival(config: Config, before: seq<Event>, arrival: Event, after: seq<Event>, bound: real)
    requires config.Valid() && bound >= 1.0 && arrival.Enqueue?
    requires ClockOrdered(0, before + [arrival] + after) && WeightsAtMost(before + [arrival] + after, bound)
    ensures Timely(Next(config, Run(config, EMPTY, before), arrival), arrival.now, bound)
    ensures ClockOrdered(arrival.now, after) && WeightsAtMost(after, bound)
  {
    EmptyTimely(bound);
    hide WellFormed, Weight, EnqueueError;
    var f := Run(config, EMPTY, before);
    var es := before + [arrival] + after;
    assert es == before + ([arrival] + after);
    ClockPrefix(0, before, [arrival] + after);
    forall i | 0 <= i < |before| ensures WeightAtMost(before[i], bound) { assert es[i] == before[i]; }
    assert es[|before|] == arrival;
    assert WeightAtMost(arrival, bound);
    forall i | 0 <= i < |after| ensures WeightAtMost(after[i], bound) { assert es[|before| + 1 + i] == after[i]; }
    var t := RunTimely(config, EMPTY, before, 0, bound);
    assert ([arrival] + after)[1..] == after;
    NextTimely(config, f, arrival, t, bound);
  }

  /** Every run: a request that is accepted while `n` others wait, and in whose window `m` more are
      enqueued, has left the queue once more than `n + m` pops with readings at most `lag` behind have been
      made; other pops do it no harm. Where every pop lags by no more than that, all pops count. */
  lemma EventualService(config: Config, before: seq<Event>, arrival: Event, after: seq<Event>, bound: real, lag: nat)
    requires config.Valid() && bound >= 1.0 && arrival.Enqueue?
    requires ClockOrdered(0, before + [arrival] + after) && WeightsAtMost(before + [arrival] + after, bound)
    requires EnqueueError(config, Run(config, EMPTY, before), arrival.request, arrival.bodyBytes).None?
    ensures
      var f := Run(config, EMPTY, before);
      var x, f' := Entry(f, arrival.request, arrival.bodyBytes, arrival.now), Next(config, f, arrival);
      var others := |f.waiting| + RivalArrivals(config, LaggedWindow(config, bound, lag), x, f', after);
      && (PromptPops(config, f', after, lag) > others ==> x !in Run(config, f', after).waiting)
      && (LagAtMost(arrival.now, after, lag) && PopCount(after) > others ==> x !in Run(config, f', after).waiting)
  {
    AfterArrival(config, before, arrival, after, bound);
    hide WellFormed, Rivals, BringsRival, Weight, OvertakeWindow, EnqueueError, LaggedWindow, Prompt;
    var f := Run(config, EMPTY, before);
    var x := Entry(f, arrival.request, arrival.bodyBytes, arrival.now);
    var f' := Next(config, f, arrival);
    assert f'.waiting[|f.waiting|] == x;
    if LagAtMost(arrival.now, after, lag) { PopsArePrompt(config, f', after, arrival.now, bound, lag); }
    if x in Run(config, f', after).waiting {
      PopsBounded(config, f', after, arrival.now, bound, lag, x);
      SequencesInOrder(f');
      RivalsAtMost(LaggedWindow(config, bound, lag), x, f'.waiting);
    }
  }

  // -------------------------------------------------------------------------------- burst fairness

  /** The key served by an event, if the event serves one. */
  ghost function ServedKey(config: Config, f: Flat, e: Event): Option<QueueKey>
    requires config.Valid() && WellFormed(f)
  {
    if e.Pop? && f.waiting != [] then Some(f.waiting[Choice(config, f, e.now)].Key()) else None
  }

  ghost function WorkServed(config: Config, f: Flat, e: Event, k: QueueKey): real
    requires config.Valid() && WellFormed(f)
  {
    if ServedKey(config, f, e) == Some(k) then f.waiting[Choice(config, f, e.now)].request.Work() else 0.0
  }

  /** Total work popped from the queue of `k` in a run. */
  ghost function TotalWork(config: Config, f: Flat, es: seq<Event>, k: QueueKey): real
    requires config.Valid() && WellFormed(f)
    decreases |es|
  {
    if es == [] then 0.0
    else WorkServed(config, f, es[0], k) + TotalWork(config, Next(config, f, es[0]), es[1..], k)
  }

  /** Both queues hold requests, all with one enqueue time and one deadline, none larger than `largest`. */
  ghost predicate Twins(f: Flat, a: QueueKey, b: QueueKey, enqueuedNs: nat, deadlineNs: nat, largest: real)
  {
    && a in f.credit && b in f.credit
    && forall i :: 0 <= i < |f.waiting| && f.waiting[i].Key() in {a, b} ==>
         && f.waiting[i].enqueuedNs == enqueuedNs && f.waiting[i].deadlineNs == deadlineNs
         && f.waiting[i].request.Work() <= largest
  }

  ghost predicate TwinsThroughout(config: Config, f: Flat, es: seq<Event>, a: QueueKey, b: QueueKey,
                                  enqueuedNs: nat, deadlineNs: nat, largest: real)
    requires config.Valid() && WellFormed(f)
    decreases |es|
  {
    && Twins(f, a, b, enqueuedNs, deadlineNs, largest)
    && (es != [] ==> TwinsThroughout(config, Next(config, f, es[0]), es[1..], a, b, enqueuedNs, deadlineNs, largest))
  }

  /** How far `a` has been served ahead of `b`, in work. */
  ghost function Lead(f: Flat, a: QueueKey, b: QueueKey): real
    requires a in f.credit && b in f.credit
  {
    f.credit[a].weight * (f.credit[a].served - f.credit[b].served)
  }

  /** Renormalising takes the same amount off both queues. */
  lemma RenormaliseGap(config: Config, credit: map<QueueKey, Credit>, a: QueueKey, b: QueueKey)
    requires a in credit && b in credit
    ensures Renormalise(config, credit).Keys == credit.Keys
    ensures Renormalise(config, credit)[a].served - Renormalise(config, credit)[b].served ==
            credit[a].served - credit[b].served
    ensures Renormalise(config, credit)[a].weight == credit[a].weight
    ensures Renormalise(config, credit)[b].weight == credit[b].weight
  {
  }

  lemma ChargedLead(config: Config, f: Flat, i: nat, a: QueueKey, b: QueueKey)
    requires config.Valid() && WellFormed(f) && i < |f.waiting| && a != b
    requires a in f.credit && b in f.credit && f.credit[a].weight == f.credit[b].weight
    ensures a in Charged(config, f, i).credit && b in Charged(config, f, i).credit
    ensures Charged(config, f, i).credit[a].weight == Charged(config, f, i).credit[b].weight == f.credit[a].weight
    ensures
      var k, work := f.waiting[i].Key(), f.waiting[i].request.Work();
      Lead(Charged(config, f, i), a, b) ==
      Lead(f, a, b) + (if k == a then work else 0.0) - (if k == b then work else 0.0)
  {
    hide Renormalise, KeySet;
    KeyHasCredit(f, i);
    var k, work := f.waiting[i].Key(), f.waiting[i].request.Work();
    RenormaliseGap(config, f.credit[k := Charge(f.credit[k], work)], a, b);
    var w, sa, sb := f.credit[a].weight, f.credit[a].served, f.credit[b].served;
    if k == a {
      ScaledGap(w, sa, sb, work / w, 0.0);
    } else if k == b {
      ScaledGap(w, sa, sb, 0.0, work / w);
    }
  }

  lemma ScaledGap(w: real, sa: real, sb: real, ca: real, cb: real)
    requires w >= 1.0
    ensures w * ((sa + ca) - (sb + cb)) == w * (sa - sb) + w * ca - w * cb
  {
  }

  /** A step changes the lead by exactly the work it serves, whether or not it renormalises. */
  lemma LeadStep(config: Config, f: Flat, e: Event, a: QueueKey, b: QueueKey)
    requires config.Valid() && WellFormed(f) && a != b
    requires a in f.credit && b in f.credit && f.credit[a].weight == f.credit[b].weight
    requires a in Next(config, f, e).credit && b in Next(config, f, e).credit
    ensures Next(config, f, e).credit[a].weight == Next(config, f, e).credit[b].weight == f.credit[a].weight
    ensures Lead(Next(config, f, e), a, b) ==
            Lead(f, a, b) + WorkServed(config, f, e, a) - WorkServed(config, f, e, b)
  {
    hide Score, KeySet, Charged, Lead;
    assert SameCredit(f, Next(config, f, e), a, b) || (e.Pop? && f.waiting != []);
    if e.Pop? && f.waiting != [] {
      var i := Choice(config, f, e.now);
      ChargedLead(config, f, i, a, b);
      SameLead(Charged(config, f, i), Next(config, f, e), a, b);
    } else {
      SameLead(f, Next(config, f, e), a, b);
    }
  }

  ghost predicate SameCredit(f: Flat, f': Flat, a: QueueKey, b: QueueKey)
    requires a in f.credit && b in f.credit && a in f'.credit && b in f'.credit
  {
    f'.credit[a] == f.credit[a] && f'.credit[b] == f.credit[b]
  }

  lemma SameLead(f: Flat, f': Flat, a: QueueKey, b: QueueKey)
    requires a in f.credit && b in f.credit && a in f'.credit && b in f'.credit
    requires SameCredit(f, f', a, b)
    ensures Lead(f, a, b) == Lead(f', a, b)
  {
  }

  /** How far `a` is ahead of `b`: positive exactly when `b` has the greater fairness term. */
  function Ahead(config: Config, a: Credit, b: Credit): real
  {
    b.weight * (a.served + config.quantum) - a.weight * (b.served + config.quantum)
  }

  lemma FairComparesAhead(config: Config, a: Credit, b: Credit)
    requires config.Valid() && a.Valid() && b.Valid()
    requires Fair(config, a) >= Fair(config, b)
    ensures Ahead(config, a, b) <= 0.0
  {
    var q, da, db := config.quantum, a.served + config.quantum, b.served + config.quantum;
    var fa, fb := Fair(config, a), Fair(config, b);
    assert fa * da == a.weight * q && fb * db == b.weight * q;
    Crosswise(fa, fb, da, db, a.weight, b.weight, q);
  }

  lemma Crosswise(fa: real, fb: real, da: real, db: real, wa: real, wb: real, q: real)
    requires fa >= fb && da > 0.0 && db > 0.0 && q > 0.0 && fa * da == wa * q && fb * db == wb * q
    ensures wb * da <= wa * db
  {
    assert (fa - fb) * (da * db) >= 0.0 by { assert da * db > 0.0; }
    assert fa * (da * db) == (fa * da) * db && fb * (da * db) == (fb * db) * da;
    assert (wa * q) * db >= (wb * q) * da;
    assert (wa * q) * db == q * (wa * db) && (wb * q) * da == q * (wb * da);
    assert q * (wa * db - wb * da) >= 0.0;
  }

  /** Of two queues with equally old and equally urgent fronts, a pop never serves the one that is ahead. */
  lemma ServesTheOneNotAhead(config: Config, f: Flat, now: nat, a: QueueKey, b: QueueKey,
                             enqueuedNs: nat, deadlineNs: nat, largest: real)
    requires config.Valid() && WellFormed(f) && a != b && Twins(f, a, b, enqueuedNs, deadlineNs, largest)
    requires ServedKey(config, f, Pop(now)) == Some(a)
    ensures Ahead(config, f.credit[a], f.credit[b]) <= 0.0 && 0.0 <= WorkServed(config, f, Pop(now), a) <= largest
  {
    hide Fair, Ahead;
    var i := Choice(config, f, now);
    var j :| 0 <= j < |f.waiting| && f.waiting[j].Key() == b;
    var h := HeadOf(f.waiting, j);
    assert Beats(config, f, now, i, h);
    assert f.waiting[i].Key() in {a, b} && f.waiting[h].Key() in {a, b};
    assert Age(config, f.waiting[i], now) == Age(config, f.waiting[h], now);
    assert DeadlineBoost(config, f.waiting[i], now) == DeadlineBoost(config, f.waiting[h], now);
    FairComparesAhead(config, f.credit[a], f.credit[b]);
  }

  lemma LeadIsAhead(config: Config, f: Flat, a: QueueKey, b: QueueKey)
    requires a in f.credit && b in f.credit && f.credit[a].weight == f.credit[b].weight
    ensures Lead(f, a, b) == Ahead(config, f.credit[a], f.credit[b]) == -Lead(f, b, a)
  {
    var w, sa, sb, q := f.credit[a].weight, f.credit[a].served, f.credit[b].served, config.quantum;
    assert w * (sa + q) - w * (sb + q) == w * (sa - sb);
  }

  lemma LeadBoundedStep(config: Config, f: Flat, e: Event, a: QueueKey, b: QueueKey,
                        enqueuedNs: nat, deadlineNs: nat, largest: real)
    requires config.Valid() && WellFormed(f) && a != b && Twins(f, a, b, enqueuedNs, deadlineNs, largest)
    requires f.credit[a].weight == f.credit[b].weight
    requires a in Next(config, f, e).credit && b in Next(config, f, e).credit
    requires -largest <= Lead(f, a, b) <= largest
    ensures -largest <= Lead(Next(config, f, e), a, b) <= largest
  {
    LeadStep(config, f, e, a, b);
    LeadIsAhead(config, f, a, b);
    LeadIsAhead(config, f, b, a);
    hide *;
    if ServedKey(config, f, e) == Some(a) {
      ServesTheOneNotAhead(config, f, e.now, a, b, enqueuedNs, deadlineNs, largest);
    } else if ServedKey(config, f, e) == Some(b) {
      ServesTheOneNotAhead(config, f, e.now, b, a, enqueuedNs, deadlineNs, largest);
    }
  }

  lemma {:induction false} LeadBounded(config: Config, f: Flat, es: seq<Event>, a: QueueKey, b: QueueKey,
                                       enqueuedNs: nat, deadlineNs: nat, largest: real)
    requires config.Valid() && WellFormed(f) && a != b
    requires TwinsThroughout(config, f, es, a, b, enqueuedNs, deadlineNs, largest)
    requires f.credit[a].weight == f.credit[b].weight
    requires -largest <= Lead(f, a, b) <= largest
    ensures -largest <= Lead(f, a, b) + TotalWork(config, f, es, a) - TotalWork(config, f, es, b) <= largest
    decreases |es|
  {
    if es != [] {
      LeadStep(config, f, es[0], a, b);
      LeadBoundedStep(config, f, es[0], a, b, enqueuedNs, deadlineNs, largest);
      LeadBounded(config, Next(config, f, es[0]), es[1..], a, b, enqueuedNs, deadlineNs, largest);
    }
  }

  ghost predicate Unserved(f: Flat, k: QueueKey)
  {
    k in f.credit ==> f.credit[k].served == 0.0
  }

  /** A queue that starts empty has zero charged service until one of its requests is popped. */
  lemma UnservedStep(config: Config, f: Flat, e: Event, k: QueueKey)
    requires config.Valid() && WellFormed(f) && Unserved(f, k)
    requires ServedKey(config, f, e) != Some(k)
    ensures Unserved(Next(config, f, e), k)
  {
    hide Score, KeySet, SequencesIncrease, IdsDistinct;
    if e.Pop? && f.waiting != [] {
      var i := Choice(config, f, e.now);
      ChargedWellFormed(config, f, i);
      KeyHasCredit(f, i);
    }
  }

  ghost predicate NeverServed(config: Config, f: Flat, es: seq<Event>, k: QueueKey)
    requires config.Valid() && WellFormed(f)
    decreases |es|
  {
    es != [] ==> ServedKey(config, f, es[0]) != Some(k) && NeverServed(config, Next(config, f, es[0]), es[1..], k)
  }

  lemma {:induction false} UnservedRun(config: Config, f: Flat, es: seq<Event>, k: QueueKey)
    requires config.Valid() && WellFormed(f) && Unserved(f, k) && NeverServed(config, f, es, k)
    ensures Unserved(Run(config, f, es), k)
    decreases |es|
  {
    if es != [] {
      UnservedStep(config, f, es[0], k);
      UnservedRun(config, Next(config, f, es[0]), es[1..], k);
    }
  }

  /** Two queues that start empty, fill up with equal weights before either is served, and then both
      stay occupied by equally old and equally urgent requests: in every run the work popped from
      them differs by at most one largest request. */
  lemma BurstFairness(config: Config, f: Flat, filling: seq<Event>, serving: seq<Event>, a: QueueKey, b: QueueKey,
                      enqueuedNs: nat, deadlineNs: nat, largest: real)
    requires config.Valid() && WellFormed(f) && a != b && a !in f.credit && b !in f.credit && largest >= 0.0
    requires NeverServed(config, f, filling, a) && NeverServed(config, f, filling, b)
    requires TwinsThroughout(config, Run(config, f, filling), serving, a, b, enqueuedNs, deadlineNs, largest)
    requires Run(config, f, filling).credit[a].weight == Run(config, f, filling).credit[b].weight
    ensures
      var start := Run(config, f, filling);
      -largest <= TotalWork(config, start, serving, a) - TotalWork(config, start, serving, b) <= largest
  {
    UnservedRun(config, f, filling, a);
    UnservedRun(config, f, filling, b);
    LeadBounded(config, Run(config, f, filling), serving, a, b, enqueuedNs, deadlineNs, largest);
  }
}
