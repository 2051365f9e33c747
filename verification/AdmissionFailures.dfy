/** Runs of a single request, from the start of the proxy, in which what one would expect does not hold. */
module AdmissionFailures {
  import opened Sums
  import opened Concurrency
  import opened AdmissionRow
  import opened AdmissionSteps
  import opened AdmissionRuns
  import opened AdmissionWaits
  import opened AdmissionAttempts
  import opened Ownership

  // ------------------------------------------------------------------ one request on its own

  /** Names without a policy have one slot each. */
  const ONE_EACH := Limits(map[], map[])

  function Chain(r: Row, ss: seq<Step>): Option<Row>
    decreases |ss|
  {
    if ss == [] then Some(r)
    else if Moved(r, ss[0]).Some? then Chain(Moved(r, ss[0]).value, ss[1..])
    else None
  }

  function Acts(ss: seq<Step>): seq<Event>
  {
    if ss == [] then [] else [Act(0, ss[0], ONE_EACH, false)] + Acts(ss[1..])
  }

  /** Steps that need neither a full counter nor shadow mode, with new leases, and pops only before the dispatcher
      stops. */
  predicate Possible(ss: seq<Step>, used: set<LeaseId>, stopped: bool)
    decreases |ss|
  {
    ss != [] ==>
      && !ss[0].EnterRefused? && !ss[0].DispatchEnterRefused? && !ss[0].ForceEnter? && (ss[0].Pop? ==> !stopped)
      && Stores(ss[0]) !! used && Possible(ss[1..], used + Stores(ss[0]), stopped)
  }

  ghost predicate Solo(w: World, r: Row) { Inv(w) && w.rows == map[0 := r] }

  lemma SoloHasRoom(w: World, r: Row)
    requires Solo(w, r) && !HoldsSlot(r)
    ensures HasRoom(w.tenants, w.applications, ONE_EACH, r.who)
  {
    hide HoldsSlot, LeasesCounted, StoppedIdle;
    assert TenantHolders(w.rows, r.who.tenant) == {} && ApplicationHolders(w.rows, r.who.application) == {};
  }

  lemma SoloIsFresh(w: World, r: Row, s: Step)
    requires Solo(w, r) && Stores(s) !! w.owner.Keys
    ensures RowOk(r) && Fresh(r, s)
  {
    hide RowOk, OwnedLeases, Stores, Tracked, Union, SlotsCounted, StoppedIdle;
    assert LeasesOf(w.rows)[0] == OwnedLeases(w.rows[0]);
  }

  lemma EntersWithoutSlot(r: Row, s: Step)
    requires RowOk(r) && Fresh(r, s) && Moved(r, s).Some? && (s.Enter? || s.DispatchEnter?)
    ensures !HoldsSlot(r)
  {
    hide RowOk, Fresh, Moved, HoldsSlot, LeasesKept, LedgerKept;
    StepKeeps(r, s);
  }

  lemma SoloEnabled(w: World, r: Row, s: Step)
    requires Solo(w, r) && Moved(r, s).Some? && Stores(s) !! w.owner.Keys && (s.Pop? ==> !w.stopped)
    requires !s.EnterRefused? && !s.DispatchEnterRefused? && !s.ForceEnter?
    ensures Enabled(w, Act(0, s, ONE_EACH, false))
  {
    hide RowOk, Moved, HoldsSlot, Stores, HasRoom, Inv, Fresh;
    SoloIsFresh(w, r, s);
    if s.Enter? || s.DispatchEnter? {
      EntersWithoutSlot(r, s);
      SoloHasRoom(w, r);
    }
  }

  lemma SoloStep(w: World, r: Row, s: Step)
    requires Solo(w, r) && Moved(r, s).Some? && Stores(s) !! w.owner.Keys && (s.Pop? ==> !w.stopped)
    requires !s.EnterRefused? && !s.DispatchEnterRefused? && !s.ForceEnter?
    ensures
      var e := Act(0, s, ONE_EACH, false);
      && Enabled(w, e) && Solo(Next(w, e), Moved(r, s).value)
      && Next(w, e).owner.Keys == w.owner.Keys + Stores(s) && Next(w, e).stopped == w.stopped
  {
    hide Moved, Stores, Deletes, LedgerAdds, LedgerDrops, Counted, SlotEffect, ActiveEffect, Inv, Enabled;
    var e := Act(0, s, ONE_EACH, false);
    SoloEnabled(w, r, s);
    InvStep(w, e);
    assert Next(w, e).rows == map[0 := Moved(r, s).value];
  }

  lemma {:induction false} SoloRun(w: World, r: Row, ss: seq<Step>)
    requires Solo(w, r) && Chain(r, ss).Some? && Possible(ss, w.owner.Keys, w.stopped)
    ensures Legal(w, Acts(ss)) && Solo(Run(w, Acts(ss)), Chain(r, ss).value) && Run(w, Acts(ss)).stopped == w.stopped
    decreases |ss|
  {
    hide Solo, Moved, Stores, Enabled, Next;
    if ss != [] {
      var e := Act(0, ss[0], ONE_EACH, false);
      SoloStep(w, r, ss[0]);
      SoloRun(Next(w, e), Moved(r, ss[0]).value, ss[1..]);
      assert Acts(ss)[0] == e && Acts(ss)[1..] == Acts(ss[1..]);
    }
  }

  lemma ArrivesAlone(who: Identity)
    ensures Enabled(START, Arrive(0, who)) && Solo(Next(START, Arrive(0, who)), NewRow(who))
    ensures Next(START, Arrive(0, who)).owner == map[] && !Next(START, Arrive(0, who)).stopped && !Next(START, Arrive(0, who)).draining
  {
    StartInv();
    InvStep(START, Arrive(0, who));
    hide Inv, NewRow;
  }

  lemma LegalCons(w: World, e: Event, es: seq<Event>)
    requires Enabled(w, e) && Legal(Next(w, e), es)
    ensures Legal(w, [e] + es) && Run(w, [e] + es) == Run(Next(w, e), es)
  {
    hide Enabled, Next;
    assert ([e] + es)[1..] == es;
  }

  /** A request arrives and takes these steps. */
  lemma Alone(who: Identity, ss: seq<Step>) returns (w: World)
    requires Chain(NewRow(who), ss).Some? && Possible(ss, {}, false)
    ensures Legal(START, [Arrive(0, who)] + Acts(ss)) && w == Run(START, [Arrive(0, who)] + Acts(ss))
    ensures Solo(w, Chain(NewRow(who), ss).value) && !w.stopped
  {
    hide Solo, Chain, Possible, Legal, Run, NewRow, Enabled, Next;
    var e := Arrive(0, who);
    ArrivesAlone(who);
    assert Next(START, e).owner.Keys == {};
    SoloRun(Next(START, e), NewRow(who), ss);
    LegalCons(START, e, Acts(ss));
    w := Run(START, [e] + Acts(ss));
  }

  // --------------------------------------------------------------------------------- segments

  lemma Handled(r: Row, s: Step, r': Row, rest: seq<Step>)
    requires !ByDispatcher(s) && !ByGuard(s) && HandlerMoved(r, s) == Some(r')
    ensures Chain(r, [s] + rest) == Chain(r', rest)
  {
    assert Moved(r, s) == Some(r');
    hide Moved, HandlerMoved;
    assert ([s] + rest)[1..] == rest;
  }

  lemma Dispatched(r: Row, s: Step, r': Row, rest: seq<Step>)
    requires ByDispatcher(s) && DispatchMoved(r, s) == Some(r')
    ensures Chain(r, [s] + rest) == Chain(r', rest)
  {
    assert Moved(r, s) == Some(r');
    hide Moved, DispatchMoved;
    assert ([s] + rest)[1..] == rest;
  }

  /** The coordinator has no capacity for it at first. */
  lemma RefusedAtFirst(who: Identity, rest: seq<Step>)
    ensures Chain(NewRow(who), [Enter] + ([HandlerClaim(Refuse)] + ([GiveBack] + rest))) == Chain(NewRow(who).(h := Unadmitted), rest)
  {
    hide Chain;
    var r0 := NewRow(who);
    var r1, r2, r3 := r0.(h := Claiming(Entered)), r0.(h := Claiming(NoneGranted)), r0.(h := Unadmitted);
    Handled(r0, Enter, r1, [HandlerClaim(Refuse)] + ([GiveBack] + rest));
    Handled(r1, HandlerClaim(Refuse), r2, [GiveBack] + rest);
    Handled(r2, GiveBack, r3, rest);
  }

  lemma FiledInTime(r: Row, rest: seq<Step>)
    requires r.h.Unadmitted?
    ensures Chain(r, [Enqueue] + ([InsertPending] + rest)) == Chain(r.(h := Waiting, queued := true, channel := Open, pending := true), rest)
  {
    hide Chain;
    var r1 := r.(h := Enqueued, queued := true, channel := Open);
    Handled(r, Enqueue, r1, [InsertPending] + rest);
    Handled(r1, InsertPending, r1.(h := Waiting, pending := true), rest);
  }

  lemma MissedInBetween(r: Row, rest: seq<Step>)
    requires r.h.Unadmitted? && r.d.Idle? && !r.pending
    ensures Chain(r, [Enqueue] + ([Pop] + ([TakePending] + ([InsertPending] + rest)))) ==
            Chain(r.(h := Waiting, queued := false, channel := Open, pending := true), rest)
  {
    hide Chain;
    var r1 := r.(h := Enqueued, queued := true, channel := Open);
    var r3 := r1.(queued := false);
    Handled(r, Enqueue, r1, [Pop] + ([TakePending] + ([InsertPending] + rest)));
    Handled(r3, InsertPending, r3.(h := Waiting, pending := true), rest);
    hide HandlerMoved;
    ThrownAway(r1, [InsertPending] + rest);
  }

  lemma ThrownAway(r: Row, rest: seq<Step>)
    requires r.d.Idle? && r.queued && !r.pending
    ensures Chain(r, [Pop] + ([TakePending] + rest)) == Chain(r.(queued := false), rest)
  {
    hide Chain;
    var r1 := r.(d := Popped, queued := false);
    Dispatched(r, Pop, r1, [TakePending] + rest);
    Dispatched(r1, TakePending, r.(queued := false), rest);
  }

  lemma TakenOver(r: Row, rest: seq<Step>)
    requires r.d.Idle? && r.queued && r.pending
    ensures Chain(r, [Pop] + ([TakePending] + rest)) == Chain(r.(d := Owned, queued := false, pending := false), rest)
  {
    hide Chain;
    var r1 := r.(d := Popped, queued := false);
    Dispatched(r, Pop, r1, [TakePending] + rest);
    Dispatched(r1, TakePending, r1.(d := Owned, pending := false), rest);
  }

  lemma PickedUp(r: Row, rest: seq<Step>)
    requires r.d.Idle? && r.queued && r.pending
    ensures Chain(r, [Pop] + ([TakePending] + ([DispatchEnter] + rest))) ==
            Chain(r.(d := Attempt(Entered), queued := false, pending := false), rest)
  {
    hide Chain;
    var r2 := r.(d := Owned, queued := false, pending := false);
    TakenOver(r, [DispatchEnter] + rest);
    Dispatched(r2, DispatchEnter, r2.(d := Attempt(Entered)), rest);
  }

  lemma TakesOne(r: Row, c: Claim, l: LeaseId, c': Claim, rest: seq<Step>)
    requires r.d == Attempt(c) && ClaimNext(c, Take(l)) == Some(c')
    ensures Chain(r, [DispatchClaim(Take(l))] + rest) == Chain(r.(d := Attempt(c')), rest)
  {
    hide Chain, ClaimNext;
    Dispatched(r, DispatchClaim(Take(l)), r.(d := Attempt(c')), rest);
  }

  lemma TakesThree(r: Row, g: Grant, rest: seq<Step>)
    requires r.d == Attempt(Entered)
    ensures Chain(r, [DispatchClaim(Take(g.tenantSlot))] + ([DispatchClaim(Take(g.applicationSlot))] + ([DispatchClaim(Take(g.capacity))] + rest))) ==
            Chain(r.(d := Attempt(Complete(g))), rest)
  {
    hide Chain;
    var t, a, c := g.tenantSlot, g.applicationSlot, g.capacity;
    TakesOne(r, Entered, t, TenantHeld(t), [DispatchClaim(Take(a))] + ([DispatchClaim(Take(c))] + rest));
    TakesOne(r.(d := Attempt(TenantHeld(t))), TenantHeld(t), a, BothHeld(t, a), [DispatchClaim(Take(c))] + rest);
    TakesOne(r.(d := Attempt(BothHeld(t, a))), BothHeld(t, a), c, Complete(g), rest);
  }

  lemma IsTracked(r: Row, g: Grant, rest: seq<Step>)
    requires r.d == Attempt(Complete(g))
    ensures Chain(r, [DispatchComplete] + ([DispatchTrack] + rest)) == Chain(r.(d := Sending(g)), rest)
  {
    hide Chain;
    Dispatched(r, DispatchComplete, r.(d := Track(g)), [DispatchTrack] + rest);
    Dispatched(r.(d := Track(g)), DispatchTrack, r.(d := Sending(g)), rest);
  }

  lemma IsSent(r: Row, g: Grant, rest: seq<Step>)
    requires r.d == Attempt(Complete(g)) && r.channel.Open?
    ensures Chain(r, [DispatchComplete] + ([DispatchTrack] + ([Send] + rest))) == Chain(r.(d := Idle, channel := Full(g), grants := r.grants + 1), rest)
  {
    hide Chain;
    IsTracked(r, g, [Send] + rest);
    Dispatched(r.(d := Sending(g)), Send, r.(d := Idle, channel := Full(g), grants := r.grants + 1), rest);
  }

  lemma Withdraws(r: Row, rest: seq<Step>)
    requires r.h.TimedOut?
    ensures Chain(r, [CancelQueued] + ([RemovePending] + rest)) == Chain(r.(h := Gone, queued := false, pending := false), rest)
  {
    hide Chain;
    var r2 := r.(h := Withdrawn, queued := false);
    Handled(r, CancelQueued, r2, [RemovePending] + rest);
    Handled(r2, RemovePending, r2.(h := Gone, pending := false), rest);
  }

  lemma GivesUp(r: Row, rest: seq<Step>)
    requires r.h.Waiting?
    ensures Chain(r, [TimeOut] + ([CancelQueued] + ([RemovePending] + rest))) == Chain(ReceiverGone(r, Gone).(queued := false, pending := false), rest)
  {
    hide Chain;
    Handled(r, TimeOut, ReceiverGone(r, TimedOut), [CancelQueued] + ([RemovePending] + rest));
    hide HandlerMoved;
    Withdraws(ReceiverGone(r, TimedOut), rest);
  }

  lemma RefusedAgain(r: Row, rest: seq<Step>)
    requires r.d == Attempt(Entered)
    ensures Chain(r, [DispatchClaim(Refuse)] + ([DispatchGiveBack] + rest)) == Chain(r.(d := Retry), rest)
  {
    hide Chain;
    var r1 := r.(d := Attempt(NoneGranted));
    assert r.orphans + Leftover(NoneGranted) == r.orphans;
    Dispatched(r, DispatchClaim(Refuse), r1, [DispatchGiveBack] + rest);
    Dispatched(r1, DispatchGiveBack, r.(d := Retry), rest);
  }

  /** The dispatcher is refused too, and enqueues again, with success or not. */
  lemma TriesInVain(r: Row, ok: bool, rest: seq<Step>)
    requires r.d == Attempt(Entered)
    ensures Chain(r, [DispatchClaim(Refuse)] + ([DispatchGiveBack] + ([Requeue(ok)] + rest))) == Chain(r.(d := Reinsert, queued := ok), rest)
  {
    hide Chain;
    RefusedAgain(r, [Requeue(ok)] + rest);
    Dispatched(r.(d := Retry), Requeue(ok), r.(d := Reinsert, queued := ok), rest);
  }

  /** Steps that store nothing are possible in any number. */
  predicate Quiet(s: Step, stopped: bool)
  {
    !s.EnterRefused? && !s.DispatchEnterRefused? && !s.ForceEnter? && (s.Pop? ==> !stopped) && Stores(s) == {}
  }

  lemma {:induction false} QuietFirst(ss: seq<Step>, rest: seq<Step>, used: set<LeaseId>, stopped: bool)
    requires (forall s :: s in ss ==> Quiet(s, stopped)) && Possible(rest, used, stopped)
    ensures Possible(ss + rest, used, stopped)
    decreases |ss|
  {
    if ss == [] {
      assert ss + rest == rest;
    } else {
      QuietFirst(ss[1..], rest, used, stopped);
      assert (ss + rest)[0] == ss[0] && (ss + rest)[1..] == ss[1..] + rest && used + {} == used;
      assert Quiet(ss[0], stopped);
    }
  }

  lemma AllQuiet(ss: seq<Step>, used: set<LeaseId>, stopped: bool)
    requires forall s :: s in ss ==> Quiet(s, stopped)
    ensures Possible(ss, used, stopped)
  {
    hide Quiet;
    QuietFirst(ss, [], used, stopped);
    assert ss + [] == ss;
  }

  // -------------------------------------------------------------------------- the lost wake-up

  /** A pop between enqueue and the pending entry. */
  const MISSED := [Enter] + ([HandlerClaim(Refuse)] + ([GiveBack] + ([Enqueue] + ([Pop] + ([TakePending] + ([InsertPending] + []))))))

  /** The handler enqueues before it files its pending entry; a pop in between throws the request away. */
  lemma PopBeforePendingStrands(who: Identity)
    ensures Legal(START, [Arrive(0, who)] + Acts(MISSED)) && StrandedIn(Run(START, [Arrive(0, who)] + Acts(MISSED)), 0)
  {
    hide Chain, Possible, Inv, Legal, Run, Acts;
    RefusedAtFirst(who, [Enqueue] + ([Pop] + ([TakePending] + ([InsertPending] + []))));
    MissedInBetween(NewRow(who).(h := Unadmitted), []);
    ChainEnds(NewRow(who).(h := Waiting, channel := Open, pending := true));
    AllQuiet(MISSED, {}, false);
    var w := Alone(who, MISSED);
  }

  lemma ChainEnds(r: Row)
    ensures Chain(r, []) == Some(r)
  {
  }

  /** The dispatcher is refused too and enqueues again, with success or not. */
  function Again(ok: bool, rest: seq<Step>): seq<Step>
  {
    [Enter] + ([HandlerClaim(Refuse)] + ([GiveBack] + ([Enqueue] + ([InsertPending] + ([Pop] + ([TakePending] + ([DispatchEnter] +
    ([DispatchClaim(Refuse)] + ([DispatchGiveBack] + ([Requeue(ok)] + rest))))))))))
  }

  lemma EnqueuedAgain(who: Identity, ok: bool, rest: seq<Step>)
    ensures Chain(NewRow(who), Again(ok, rest)) == Chain(NewRow(who).(h := Waiting, channel := Open, d := Reinsert, queued := ok), rest)
  {
    hide Chain;
    var r0 := NewRow(who);
    var r1 := r0.(h := Waiting, queued := true, channel := Open, pending := true);
    var r2 := r1.(d := Attempt(Entered), queued := false, pending := false);
    var t3 := [DispatchClaim(Refuse)] + ([DispatchGiveBack] + ([Requeue(ok)] + rest));
    var t2 := [Pop] + ([TakePending] + ([DispatchEnter] + t3));
    RefusedAtFirst(who, [Enqueue] + ([InsertPending] + t2));
    FiledInTime(r0.(h := Unadmitted), t2);
    PickedUp(r1, t3);
    TriesInVain(r2, ok, rest);
  }

  const NOT_REQUEUED := Again(false, [ReinsertPending] + [])

  /** The queue has filled up while the dispatcher tried: its enqueue is refused, it files the entry all the
      same, and the request waits for a pop that cannot come. */
  lemma RefusedRequeueStrands(who: Identity)
    ensures Legal(START, [Arrive(0, who)] + Acts(NOT_REQUEUED)) && StrandedIn(Run(START, [Arrive(0, who)] + Acts(NOT_REQUEUED)), 0)
  {
    hide Chain, Possible, Inv, Legal, Run, Acts, Again, StrandedIn;
    AgainIsPossible(false, [ReinsertPending] + []);
    var r := NewRow(who).(h := Waiting, channel := Open, d := Reinsert);
    EnqueuedAgain(who, false, [ReinsertPending] + []);
    Dispatched(r, ReinsertPending, r.(d := Idle, pending := true), []);
    ChainEnds(r.(d := Idle, pending := true));
    var w := Alone(who, NOT_REQUEUED);
    WaitsForNothing(w, r.(d := Idle, pending := true));
  }

  lemma AgainIsPossible(ok: bool, rest: seq<Step>)
    requires forall s :: s in rest ==> Quiet(s, false)
    ensures Possible(Again(ok, rest), {}, false)
  {
    hide Possible;
    AllQuiet(Again(ok, rest), {}, false);
  }

  lemma WaitsForNothing(w: World, r: Row)
    requires Solo(w, r) && Lost(r) && r.h.Waiting?
    ensures StrandedIn(w, 0)
  {
    hide Inv, Lost;
  }

  // ------------------------------------------------------------------------------- draining

  const FILED := [Enter] + ([HandlerClaim(Refuse)] + ([GiveBack] + ([Enqueue] + ([InsertPending] + []))))
  const FILED_AND_GONE := [Enter] + ([HandlerClaim(Refuse)] + ([GiveBack] + ([Enqueue] + ([InsertPending] + ([ClientGone] + [])))))

  /** A request arrives, the proxy begins to drain, the dispatcher finds nothing pending and stops, and only then
      does the request take its steps. */
  function Drained(who: Identity, ss: seq<Step>): seq<Event> { [Arrive(0, who)] + ([Drain] + ([Stop] + Acts(ss))) }

  lemma StopsEarly(w: World, r: Row)
    requires Solo(w, r) && r.d.Idle? && !r.pending && !w.draining && !w.stopped
    ensures Enabled(w, Drain) && Enabled(Next(w, Drain), Stop)
    ensures
      var w' := Next(Next(w, Drain), Stop);
      Solo(w', r) && w'.stopped && w'.owner == w.owner
  {
    hide Inv;
    InvStep(w, Drain);
    InvStep(Next(w, Drain), Stop);
  }

  lemma AloneDrained(who: Identity, ss: seq<Step>) returns (w: World)
    requires Chain(NewRow(who), ss).Some? && Possible(ss, {}, true)
    ensures Legal(START, Drained(who, ss)) && w == Run(START, Drained(who, ss))
    ensures Solo(w, Chain(NewRow(who), ss).value) && w.stopped
  {
    var e := Arrive(0, who);
    var w1 := Next(START, e);
    ArrivesAlone(who);
    assert w1.owner.Keys == {} && NewRow(who).d.Idle? && !NewRow(who).pending;
    hide Solo, Chain, Possible, Legal, Run, NewRow, Enabled, Next, Acts;
    StopsEarly(w1, NewRow(who));
    var w2 := Next(w1, Drain);
    var w3 := Next(w2, Stop);
    SoloRun(w3, NewRow(who), ss);
    LegalCons(w2, Stop, Acts(ss));
    LegalCons(w1, Drain, [Stop] + Acts(ss));
    LegalCons(START, e, [Drain] + ([Stop] + Acts(ss)));
    w := Run(START, Drained(who, ss));
  }

  /** Draining before a slow request has filed its entry strands it. */
  lemma DrainStrands(who: Identity)
    ensures Legal(START, Drained(who, FILED)) && StrandedIn(Run(START, Drained(who, FILED)), 0)
  {
    hide Chain, Possible, Inv, Legal, Run, Acts, Drained;
    RefusedAtFirst(who, [Enqueue] + ([InsertPending] + []));
    FiledInTime(NewRow(who).(h := Unadmitted), []);
    ChainEnds(NewRow(who).(h := Waiting, queued := true, channel := Open, pending := true));
    AllQuiet(FILED, {}, true);
    var w := AloneDrained(who, FILED);
  }

  /** If its client then goes away, its entry is pending for ever. */
  lemma DrainLeavesEntry(who: Identity)
    ensures Legal(START, Drained(who, FILED_AND_GONE)) && StaysPending(Run(START, Drained(who, FILED_AND_GONE)), 0)
  {
    hide Chain, Possible, Inv, Legal, Run, Acts, Drained, StaysPending;
    var r := NewRow(who).(h := Waiting, queued := true, channel := Open, pending := true);
    RefusedAtFirst(who, [Enqueue] + ([InsertPending] + ([ClientGone] + [])));
    FiledInTime(NewRow(who).(h := Unadmitted), [ClientGone] + []);
    Handled(r, ClientGone, ReceiverGone(r, Gone), []);
    ChainEnds(ReceiverGone(r, Gone));
    AllQuiet(FILED_AND_GONE, {}, true);
    var w := AloneDrained(who, FILED_AND_GONE);
    StuckStays(w, 0);
  }

  // ------------------------------------------------------------------ a cancel between two dispatcher steps

  const CANCELLED_BETWEEN := Again(true, [TimeOut] + ([CancelQueued] + ([RemovePending] + ([ReinsertPending] + []))))

  /** The handler gives up between the dispatcher's enqueue and its insert: the entry is filed after all, outside
      of the queue, for ever. */
  lemma CancelLeavesEntry(who: Identity)
    ensures Legal(START, [Arrive(0, who)] + Acts(CANCELLED_BETWEEN)) && StaysPending(Run(START, [Arrive(0, who)] + Acts(CANCELLED_BETWEEN)), 0)
  {
    hide Chain, Possible, Inv, Legal, Run, Acts, StaysPending, Again;
    AgainIsPossible(true, [TimeOut] + ([CancelQueued] + ([RemovePending] + ([ReinsertPending] + []))));
    var r := NewRow(who).(h := Waiting, channel := Open, d := Reinsert, queued := true);
    var r' := ReceiverGone(r, Gone).(queued := false, pending := false);
    EnqueuedAgain(who, true, [TimeOut] + ([CancelQueued] + ([RemovePending] + ([ReinsertPending] + []))));
    GivesUp(r, [ReinsertPending] + []);
    Dispatched(r', ReinsertPending, r'.(d := Idle, pending := true), []);
    ChainEnds(r'.(d := Idle, pending := true));
    var w := Alone(who, CANCELLED_BETWEEN);
    StuckStays(w, 0);
  }

  // ------------------------------------------------------------------------------ a grant nobody reads

  const BEFORE_TAKING := [Enter, HandlerClaim(Refuse), GiveBack, Enqueue, InsertPending, Pop, TakePending, DispatchEnter]
  const AFTER_TAKING := [DispatchComplete] + ([DispatchTrack] + ([Send] + ([TimeOut] + ([CancelQueued] + ([RemovePending] + [])))))

  function Before(rest: seq<Step>): seq<Step>
  {
    [Enter] + ([HandlerClaim(Refuse)] + ([GiveBack] + ([Enqueue] + ([InsertPending] + ([Pop] + ([TakePending] + ([DispatchEnter] + rest)))))))
  }

  function Taking(g: Grant, rest: seq<Step>): seq<Step>
  {
    [DispatchClaim(Take(g.tenantSlot))] + ([DispatchClaim(Take(g.applicationSlot))] + ([DispatchClaim(Take(g.capacity))] + rest))
  }

  function Unread(g: Grant): seq<Step> { Before(Taking(g, AFTER_TAKING)) }

  lemma BeforeIsList(rest: seq<Step>)
    ensures Before(rest) == BEFORE_TAKING + rest
  {
  }

  lemma PossibleCons(s: Step, rest: seq<Step>, used: set<LeaseId>)
    requires s.DispatchClaim? && Stores(s) !! used && Possible(rest, used + Stores(s), false)
    ensures Possible([s] + rest, used, false)
  {
    assert ([s] + rest)[1..] == rest;
    hide Stores;
  }

  lemma TakingIsPossible(g: Grant)
    requires g.Distinct()
    ensures Possible(Taking(g, AFTER_TAKING), {}, false)
  {
    hide Possible;
    var a, b, c := DispatchClaim(Take(g.tenantSlot)), DispatchClaim(Take(g.applicationSlot)), DispatchClaim(Take(g.capacity));
    AllQuiet(AFTER_TAKING, {} + Stores(a) + Stores(b) + Stores(c), false);
    PossibleCons(c, AFTER_TAKING, {} + Stores(a) + Stores(b));
    PossibleCons(b, [c] + AFTER_TAKING, {} + Stores(a));
    PossibleCons(a, [b] + ([c] + AFTER_TAKING), {});
  }

  lemma UnreadIsPossible(g: Grant)
    requires g.Distinct()
    ensures Possible(Unread(g), {}, false)
  {
    hide Possible, Taking, Before;
    TakingIsPossible(g);
    QuietFirst(BEFORE_TAKING, Taking(g, AFTER_TAKING), {}, false);
    BeforeIsList(Taking(g, AFTER_TAKING));
  }

  /** A grant that arrives between the last look at the channel and the timeout is thrown away with the channel:
      the request is finished, its slot and ledger entry are never given back, and its leases only expire. */
  lemma UnreadGrantIsLost(who: Identity, g: Grant)
    requires g.Distinct()
    ensures
      var es := [Arrive(0, who)] + Acts(Unread(g));
      && Legal(START, es)
      && var w := Run(START, es);
      && w.rows.Keys == {0} && Finished(w.rows[0]) && w.rows[0].lostSlot && w.rows[0].orphans == g.Leases()
      && g.capacity in w.ledger && !HasRoom(w.tenants, w.applications, ONE_EACH, who)
  {
    hide Chain, Possible, Inv, Legal, Run, Acts, HasRoom;
    var r0 := NewRow(who);
    var r1 := r0.(h := Waiting, queued := true, channel := Open, pending := true);
    var r2 := r1.(d := Attempt(Entered), queued := false, pending := false);
    var r3 := r2.(d := Attempt(Complete(g)));
    var r4 := r3.(d := Idle, channel := Full(g), grants := 1);
    var r5 := ReceiverGone(r4, Gone).(queued := false, pending := false);
    var t4 := [TimeOut] + ([CancelQueued] + ([RemovePending] + []));
    var t3 := [DispatchClaim(Take(g.tenantSlot))] + ([DispatchClaim(Take(g.applicationSlot))] + ([DispatchClaim(Take(g.capacity))] + AFTER_TAKING));
    var t2 := [Pop] + ([TakePending] + ([DispatchEnter] + t3));
    RefusedAtFirst(who, [Enqueue] + ([InsertPending] + t2));
    FiledInTime(r0.(h := Unadmitted), t2);
    PickedUp(r1, t3);
    TakesThree(r2, g, AFTER_TAKING);
    IsSent(r3, g, t4);
    GivesUp(r4, []);
    ChainEnds(r5);
    UnreadIsPossible(g);
    var w := Alone(who, Unread(g));
    assert r5.orphans == g.Leases() && r5.lostLedger == {g.capacity};
    LostIsKept(w, r5, g);
  }

  lemma LostIsKept(w: World, r: Row, g: Grant)
    requires Solo(w, r) && r.lostSlot && g.capacity in r.lostLedger
    ensures g.capacity in w.ledger && !HasRoom(w.tenants, w.applications, ONE_EACH, r.who)
  {
    assert HoldsSlot(r) && g.capacity in LedgerEntries(r);
    InvParts(w);
    HolderIsCounted(w, 0);
    hide HoldsSlot, LedgerEntries, Owns, RowOk, SlotsCounted, LeasesOf;
    OneRowChanges(w.rows, 0, r);
    InUnion(w.owner, Tracked(w.rows), 0, g.capacity);
  }

  // ------------------------------------------------------------------------------ a claim dropped

  const DROPPED := [Enter] + ([ClientGone] + [])

  /** A client that goes away while its request claims capacity takes a slot with it. With the default
      limit of one slot the tenant is refused from then on, although no request is left. */
  lemma DroppedClaimLocksTenantOut(who: Identity)
    ensures
      var es := [Arrive(0, who)] + Acts(DROPPED);
      && Legal(START, es) && Run(START, es).rows.Keys == {0} && Finished(Run(START, es).rows[0])
      && !HasRoom(Run(START, es).tenants, Run(START, es).applications, ONE_EACH, who)
  {
    hide Chain, Possible, Inv, Legal, Run, Acts, HasRoom;
    var r0 := NewRow(who);
    var r1, r2 := r0.(h := Claiming(Entered)), r0.(h := Gone, lostSlot := true);
    assert r0.orphans + Entered.Leases() == r0.orphans;
    Handled(r0, Enter, r1, [ClientGone] + []);
    Handled(r1, ClientGone, r2, []);
    ChainEnds(r2);
    AllQuiet(DROPPED, {}, false);
    var w := Alone(who, DROPPED);
    SlotIsKept(w, r2);
  }

  lemma SlotIsKept(w: World, r: Row)
    requires Solo(w, r) && r.lostSlot
    ensures !HasRoom(w.tenants, w.applications, ONE_EACH, r.who)
  {
    InvParts(w);
    HolderIsCounted(w, 0);
  }
}
