/** What the accounting invariant means for callers: limits, nothing given back twice, everything given
    back in the end, and exactly when it is not. */
module AdmissionTheorems {
  import opened Sums
  import opened Concurrency
  import opened AdmissionRow
  import opened AdmissionSteps
  import opened Ownership
  import opened AdmissionRuns
  import opened AdmissionWaits

  // ------------------------------------------------------------------------- concurrency limits

  ghost predicate Enforced(e: Event, limits: Limits) { e.Act? ==> e.limits == limits && !e.shadow }

  ghost predicate WithinLimits(w: World, limits: Limits)
  {
    && (forall t :: Count(w.tenants, t) <= LimitFor(limits.tenants, t))
    && (forall a :: Count(w.applications, a) <= LimitFor(limits.applications, a))
  }

  lemma CountedWithin(m: Counters, names: map<string, nat>, name: string, effect: int)
    requires -1 <= effect <= 1 && (effect == 1 ==> Count(m, name) < LimitFor(names, name))
    requires forall t :: Count(m, t) <= LimitFor(names, t)
    ensures
      var m' := Counted(m, name, effect);
      forall t :: Count(m', t) <= LimitFor(names, t)
  {
  }

  lemma LimitsStep(w: World, e: Event, limits: Limits)
    requires Enabled(w, e) && Enforced(e, limits) && WithinLimits(w, limits)
    ensures WithinLimits(Next(w, e), limits)
  {
    hide Moved, Stores, Deletes, LedgerAdds, LedgerDrops, Count, LimitFor, Counted, Named, ActiveEffect;
    if e.Act? {
      var who := w.rows[e.id].who;
      CountedWithin(w.tenants, limits.tenants, who.tenant, SlotEffect(e.step));
      CountedWithin(w.applications, limits.applications, who.application, SlotEffect(e.step));
    }
  }

  /** With fixed limits in enforcing mode, in every interleaving no tenant and no application ever has
      more requests in flight than its limit. */
  lemma {:induction false} LimitsHold(w: World, es: seq<Event>, limits: Limits)
    requires Legal(w, es) && WithinLimits(w, limits)
    requires forall i :: 0 <= i < |es| ==> Enforced(es[i], limits)
    ensures WithinLimits(Run(w, es), limits)
    decreases |es|
  {
    hide WithinLimits, Enabled, Next, Enforced;
    if es != [] {
      LimitsStep(w, es[0], limits);
      assert forall i :: 0 <= i < |es[1..]| ==> es[1..][i] == es[i + 1];
      LimitsHold(Next(w, es[0]), es[1..], limits);
    }
  }

  /** The same said of requests rather than counters. */
  lemma InFlightWithinLimit(es: seq<Event>, limits: Limits, tenant: string)
    requires Legal(START, es) && forall i :: 0 <= i < |es| ==> Enforced(es[i], limits)
    ensures |TenantHolders(Run(START, es).rows, tenant)| <= if tenant in limits.tenants then limits.tenants[tenant] else 1
  {
    hide Enabled, Next, Enforced, TenantHolders, ApplicationHolders, Guards, LeasesCounted;
    LimitsHold(START, es, limits);
    AccountingIsExact(es);
    assert Count(Run(START, es).tenants, tenant) == |TenantHolders(Run(START, es).rows, tenant)|;
  }

  // ------------------------------------------------------------------------------- shadow mode

  /** The request has never been in the queue. */
  predicate Unqueued(r: Row)
  {
    && r.channel.Unopened? && r.d.Idle? && !r.queued && !r.pending
    && !r.h.Enqueued? && !r.h.Waiting? && !r.h.TimedOut? && !r.h.Withdrawn?
  }

  lemma UnqueuedByHandler(r: Row, s: Step)
    requires Unqueued(r) && !s.Enqueue? && HandlerMoved(r, s).Some?
    ensures Unqueued(HandlerMoved(r, s).value)
  {
    hide ClaimNext;
  }

  lemma UnqueuedByGuard(r: Row, s: Step)
    requires Unqueued(r) && GuardMoved(r, s).Some?
    ensures Unqueued(GuardMoved(r, s).value)
  {
  }

  lemma UnqueuedStep(r: Row, s: Step)
    requires Unqueued(r) && !s.Enqueue? && Moved(r, s).Some?
    ensures Unqueued(Moved(r, s).value)
  {
    hide HandlerMoved, GuardMoved, DispatchMoved;
    UnqueuedIsNotDispatched(r, s);
    if ByGuard(s) {
      UnqueuedByGuard(r, s);
    } else {
      UnqueuedByHandler(r, s);
    }
  }

  lemma UnqueuedIsNotDispatched(r: Row, s: Step)
    requires Unqueued(r)
    ensures DispatchMoved(r, s).None?
  {
  }

  /** In shadow mode no request is ever queued, and none is rejected for want of capacity. */
  lemma {:induction false} ShadowNeverQueues(w: World, es: seq<Event>)
    requires Legal(w, es) && (forall id :: id in w.rows ==> Unqueued(w.rows[id]))
    requires forall i :: 0 <= i < |es| && es[i].Act? ==> es[i].shadow
    ensures forall id :: id in Run(w, es).rows ==> Unqueued(Run(w, es).rows[id])
    ensures forall i :: 0 <= i < |es| && es[i].Act? ==> !es[i].step.Reject? && !es[i].step.Enqueue?
    decreases |es|
  {
    hide Enabled, Next, Unqueued;
    if es != [] {
      ShadowStep(w, es[0]);
      assert forall i :: 0 <= i < |es[1..]| ==> es[1..][i] == es[i + 1];
      ShadowNeverQueues(Next(w, es[0]), es[1..]);
      assert forall i :: 1 <= i < |es| ==> es[i] == es[1..][i - 1];
    }
  }

  lemma ShadowStep(w: World, e: Event)
    requires Enabled(w, e) && (e.Act? ==> e.shadow) && forall id :: id in w.rows ==> Unqueued(w.rows[id])
    ensures forall id :: id in Next(w, e).rows ==> Unqueued(Next(w, e).rows[id])
    ensures e.Act? ==> !e.step.Reject? && !e.step.Enqueue?
  {
    hide Moved, HasRoom, Stores, Deletes, LedgerAdds, LedgerDrops, SlotEffect, ActiveEffect, Counted, Unqueued;
    if e.Act? {
      UnqueuedStep(w.rows[e.id], e.step);
    } else if e.Arrive? {
      NewIsUnqueued(e.who);
    }
  }

  lemma NewIsUnqueued(who: Identity)
    ensures Unqueued(NewRow(who))
  {
  }

  // ------------------------------------------------------------------------ never given back twice

  /** In every reachable state: a slot that is given back was counted, so the saturating subtraction
      never saturates; a lease that is released is stored or has expired; a ledger entry that is released
      is there, one that is tracked is new; and `active` does not drop below zero. */
  lemma NothingGivenBackTwice(es: seq<Event>, e: Event)
    requires Legal(START, es) && e.Act? && Enabled(Run(START, es), e)
    ensures
      var w := Run(START, es);
      var r, s := w.rows[e.id], e.step;
      && (SlotEffect(s) == -1 ==> Count(w.tenants, r.who.tenant) > 0 && Count(w.applications, r.who.application) > 0)
      && Deletes(r, s) <= w.stored + w.expired
      && LedgerDrops(r, s) <= w.ledger && LedgerAdds(r, s) !! w.ledger
      && Next(w, e).active >= 0
      && Next(w, e).rows[e.id].grants <= 1
  {
    AccountingIsExact(es);
    var w := Run(START, es);
    hide Legal, Run;
    ActKeepsRow(w, e);
    InvStep(w, e);
    hide Moved, HoldsSlot, LiveGuard, RowOk, Attended, OwnedLeases, LedgerEntries, Stores, Deletes, Abandoned, HasRoom, LeasesKept,
         LedgerApart, LedgerAdds, LedgerDrops, LosesSlot, LosesGrant, Union, Owns, LeasesOf, Tracked, TenantHolders, ApplicationHolders;
    if SlotEffect(e.step) == -1 { HolderIsCounted(w, e.id); }
    OwnersHold(w, e);
  }

  lemma OwnersHold(w: World, e: Event)
    requires e.Act? && Enabled(w, e) && LeasesCounted(w)
    ensures Deletes(w.rows[e.id], e.step) <= w.stored + w.expired
    ensures LedgerDrops(w.rows[e.id], e.step) <= w.ledger && LedgerAdds(w.rows[e.id], e.step) !! w.ledger
  {
    hide Moved, RowOk, Attended, OwnedLeases, LedgerEntries, Stores, Deletes, Abandoned, HasRoom, LeasesKept, CountsKept,
         LedgerApart, LedgerAdds, LedgerDrops, LosesSlot, LosesGrant, Owns, LeasesOf, Tracked;
    ActKeepsRow(w, e);
    var r, s := w.rows[e.id], e.step;
    OneRowChanges(w.rows, e.id, r);
    forall l | l in Deletes(r, s) ensures l in w.stored + w.expired { InUnion(w.owner, LeasesOf(w.rows), e.id, l); }
    forall l | l in LedgerDrops(r, s) ensures l in w.ledger { InUnion(w.owner, Tracked(w.rows), e.id, l); }
    TrackedIsNamed(w, e);
  }

  // ------------------------------------------------------------------------------ conservation

  /** How often a lease was stored, deleted, tracked in the ledger and released from it. */
  datatype LeaseTally = LeaseTally(stored: nat, deleted: nat, tracked: nat, released: nat)

  ghost function Tally(w: World, es: seq<Event>, l: LeaseId): LeaseTally
    requires Legal(w, es)
    decreases |es|
  {
    if es == [] then LeaseTally(0, 0, 0, 0)
    else
      var e, t := es[0], Tally(Next(w, es[0]), es[1..], l);
      if !e.Act? then t
      else
        var r := w.rows[e.id];
        LeaseTally(t.stored + One(l in Stores(e.step)), t.deleted + One(l in Deletes(r, e.step)),
                   t.tracked + One(l in LedgerAdds(r, e.step)), t.released + One(l in LedgerDrops(r, e.step)))
  }

  ghost function AnyOwns(w: World, l: LeaseId): bool { l in Union(w.owner, LeasesOf(w.rows)) }

  lemma TallyStep(w: World, e: Event, l: LeaseId)
    requires Enabled(w, e) && LeasesCounted(w) && LeasesCounted(Next(w, e))
    ensures
      var w' := Next(w, e);
      if e.Act? then
        var r, s := w.rows[e.id], e.step;
        && One(l in Stores(s)) == One(l in w'.owner) - One(l in w.owner)
        && One(l in Stores(s)) - One(l in Deletes(r, s)) == One(AnyOwns(w', l)) - One(AnyOwns(w, l))
        && One(l in LedgerAdds(r, s)) - One(l in LedgerDrops(r, s)) == One(l in w'.ledger) - One(l in w.ledger)
      else
        w'.owner == w.owner && AnyOwns(w', l) == AnyOwns(w, l) && w'.ledger == w.ledger
  {
    hide Moved, RowOk, Attended, OwnedLeases, LedgerEntries, Stores, Deletes, Abandoned, HasRoom, LeasesKept, CountsKept,
         LedgerApart, LedgerAdds, LedgerDrops, LosesSlot, LosesGrant, Owns, LeasesOf, Tracked, Named, Union, Counted, SlotEffect,
         ActiveEffect, NewRow;
    if e.Act? {
      ActKeepsRow(w, e);
      OwnersHold(w, e);
      var r, s := w.rows[e.id], e.step;
      NamedKeeps(w.owner, Stores(s), e.id);
      OneRowChanges(w.rows, e.id, Moved(r, s).value);
      OneRowChanges(w.rows, e.id, r);
      UnionStep(w.owner, Stores(s), LeasesOf(w.rows), e.id, Stores(s), Deletes(r, s));
      if l in Deletes(r, s) { InUnion(w.owner, LeasesOf(w.rows), e.id, l); }
      UnionIsNamed(w, l);
      TakesAndDropsApart(w, e, l);
    } else if e.Arrive? {
      NewRowOwnsNothing(e.who);
      OneRowChanges(w.rows, e.id, NewRow(e.who));
      UnionArrives(w.owner, LeasesOf(w.rows), e.id);
    }
  }

  lemma UnionIsNamed(w: World, l: LeaseId)
    ensures AnyOwns(w, l) ==> l in w.owner
  {
  }

  lemma TakesAndDropsApart(w: World, e: Event, l: LeaseId)
    requires e.Act? && Enabled(w, e) && LeasesCounted(w)
    ensures l in Stores(e.step) ==> l !in Deletes(w.rows[e.id], e.step)
    ensures l in LedgerAdds(w.rows[e.id], e.step) ==> l !in LedgerDrops(w.rows[e.id], e.step)
  {
    hide Moved, RowOk, Attended, OwnedLeases, LedgerEntries, Abandoned, HasRoom, CountsKept, LedgerApart, LosesSlot, LosesGrant, LeasesOf, Tracked,
         Stores, Deletes, LedgerAdds, LedgerDrops, LeasesKept;
    ActIsFresh(w, e);
    ActKeepsRow(w, e);
  }

  lemma {:induction false} TallyRun(w: World, es: seq<Event>, l: LeaseId)
    requires Inv(w) && Legal(w, es)
    ensures
      var t, w' := Tally(w, es, l), Run(w, es);
      && t.stored == One(l in w'.owner) - One(l in w.owner)
      && t.stored - t.deleted == One(AnyOwns(w', l)) - One(AnyOwns(w, l))
      && t.tracked - t.released == One(l in w'.ledger) - One(l in w.ledger)
    decreases |es|
  {
    hide Enabled, Next, Stores, Deletes, LedgerAdds, LedgerDrops, AnyOwns, SlotsCounted, LeasesCounted;
    if es != [] {
      InvStep(w, es[0]);
      TallyStep(w, es[0], l);
      TallyRun(Next(w, es[0]), es[1..], l);
    }
  }

  /** Leases of reservations that the ledger does not know yet. */
  function Untracked(r: Row): set<LeaseId>
  {
    (match r.h
     case Claiming(c) => c.Leases()
     case Tracking(g) => g.Leases()
     case _ => {}) +
    (match r.d
     case Attempt(c) => c.Leases()
     case Track(g) => g.Leases()
     case _ => {})
  }

  lemma UntrackedByHandler(r: Row, s: Step)
    requires RowOk(r) && Fresh(r, s) && !ByDispatcher(s) && !ByGuard(s) && HandlerMoved(r, s).Some?
    ensures Untracked(HandlerMoved(r, s).value) <= Untracked(r) + Stores(s) - LedgerAdds(r, s)
  {
    if s.HandlerClaim? {
      OnlyTheClaim(r);
      ClaimOwns(r.h.claim, s.move);
    }
    hide ClaimNext, Claim.Leases, Claim.Distinct, Grant.Leases, Grant.Distinct, NoRepeats, OwnedLeases, Attended;
  }

  lemma UntrackedByDispatcher(r: Row, s: Step)
    requires RowOk(r) && Fresh(r, s) && ByDispatcher(s) && DispatchMoved(r, s).Some?
    ensures Untracked(DispatchMoved(r, s).value) <= Untracked(r) + Stores(s) - LedgerAdds(r, s)
  {
    if s.DispatchClaim? {
      OnlyTheClaim(r);
      ClaimOwns(r.d.claim, s.move);
    }
    hide ClaimNext, Claim.Leases, Claim.Distinct, Grant.Leases, Grant.Distinct, NoRepeats, OwnedLeases, Attended;
  }

  lemma UntrackedByGuard(r: Row, s: Step)
    requires ByGuard(s) && GuardMoved(r, s).Some?
    ensures Untracked(GuardMoved(r, s).value) <= Untracked(r) + Stores(s) - LedgerAdds(r, s)
  {
    hide Claim.Leases, Grant.Leases;
  }

  lemma TrackedWasUntracked(r: Row, s: Step)
    ensures LedgerAdds(r, s) <= Untracked(r) <= OwnedLeases(r)
  {
    hide Claim.Leases;
  }

  /** What is tracked never is untracked again. */
  lemma UntrackedStep(r: Row, s: Step)
    requires RowOk(r) && Fresh(r, s) && Moved(r, s).Some?
    ensures Untracked(Moved(r, s).value) <= Untracked(r) + Stores(s) - LedgerAdds(r, s)
  {
    hide HandlerMoved, GuardMoved, DispatchMoved, RowOk, Fresh, Untracked, Stores, LedgerAdds;
    if ByDispatcher(s) {
      UntrackedByDispatcher(r, s);
    } else if ByGuard(s) {
      UntrackedByGuard(r, s);
    } else {
      UntrackedByHandler(r, s);
    }
  }

  ghost predicate AnyUntracked(w: World, l: LeaseId)
  {
    l in w.owner && w.owner[l] in w.rows && l in Untracked(w.rows[w.owner[l]])
  }

  lemma TrackedOnceStep(w: World, e: Event, l: LeaseId)
    requires Inv(w) && Enabled(w, e)
    ensures
      if e.Act? then
        One(l in LedgerAdds(w.rows[e.id], e.step)) + One(AnyUntracked(Next(w, e), l)) <= One(AnyUntracked(w, l)) + One(l in Stores(e.step))
      else
        AnyUntracked(Next(w, e), l) ==> AnyUntracked(w, l)
  {
    hide SlotsCounted, LeasesCounted, Moved, RowOk, Attended, OwnedLeases, LedgerEntries, Untracked, Stores, Deletes, HasRoom, LedgerAdds,
         LedgerDrops, Named, Counted, SlotEffect, ActiveEffect, Fresh;
    if e.Act? {
      ActIsFresh(w, e);
      TrackedWasUntracked(w.rows[e.id], e.step);
      UntrackedStep(w.rows[e.id], e.step);
      TrackedIsNamed(w, e);
      NamedKeeps(w.owner, Stores(e.step), e.id);
    } else if e.Arrive? {
      assert Untracked(NewRow(e.who)) == {} by { NewRowTracksNothing(e.who); }
    }
  }

  lemma NewRowTracksNothing(who: Identity)
    ensures Untracked(NewRow(who)) == {}
  {
  }

  lemma {:induction false} TrackedOnceRun(w: World, es: seq<Event>, l: LeaseId)
    requires Inv(w) && Legal(w, es)
    ensures Tally(w, es, l).tracked + One(AnyUntracked(Run(w, es), l)) <= One(AnyUntracked(w, l)) + Tally(w, es, l).stored
    decreases |es|
  {
    hide Inv, Enabled, Next, Stores, Deletes, LedgerAdds, LedgerDrops, AnyUntracked;
    if es != [] {
      InvStep(w, es[0]);
      TrackedOnceStep(w, es[0], l);
      TrackedOnceRun(Next(w, es[0]), es[1..], l);
    }
  }

  /** Every interleaving, every lease: it is stored at most once, and once stored it is released exactly
      once or some request still owns it; it is tracked in the ledger at most once, and once tracked it is
      released from there exactly once or is still there. */
  lemma ExactlyOnceSettlement(es: seq<Event>, l: LeaseId)
    requires Legal(START, es)
    ensures
      var t, w := Tally(START, es, l), Run(START, es);
      && t.stored <= 1 && t.deleted + One(AnyOwns(w, l)) == t.stored
      && t.tracked <= t.stored && t.released + One(l in w.ledger) == t.tracked
  {
    hide Inv, Legal, Run, Tally;
    StartInv();
    TallyRun(START, es, l);
    TrackedOnceRun(START, es, l);
  }

  /** How often a request entered and left the concurrency state, and how often its guard was built and
      counted out. */
  datatype RequestTally = RequestTally(entered: nat, left: nat, built: nat, uncounted: nat)

  ghost function Account(w: World, es: seq<Event>, id: RowId): RequestTally
    requires Legal(w, es)
    decreases |es|
  {
    if es == [] then RequestTally(0, 0, 0, 0)
    else
      var e, t := es[0], Account(Next(w, es[0]), es[1..], id);
      if !e.Act? || e.id != id then t
      else
        RequestTally(t.entered + One(SlotEffect(e.step) == 1), t.left + One(SlotEffect(e.step) == -1),
                     t.built + One(e.step.BuildGuard?), t.uncounted + One(e.step.Uncount?))
  }

  ghost predicate Holds(w: World, id: RowId) { id in w.rows && HoldsSlot(w.rows[id]) }
  ghost predicate Guarding(w: World, id: RowId) { id in w.rows && LiveGuard(w.rows[id]) }
  ghost predicate Unguarded(w: World, id: RowId) { id in w.rows ==> Stage(w.rows[id].h) < Stage(Guarded(None)) }

  lemma AccountStep(w: World, e: Event, id: RowId)
    requires Inv(w) && Enabled(w, e)
    ensures
      var w' := Next(w, e);
      if e.Act? && e.id == id then
        && SlotEffect(e.step) == One(Holds(w', id)) - One(Holds(w, id))
        && ActiveEffect(e.step) == One(Guarding(w', id)) - One(Guarding(w, id))
        && One(e.step.BuildGuard?) + One(Unguarded(w', id)) <= One(Unguarded(w, id))
      else
        (Holds(w', id) <==> Holds(w, id)) && (Guarding(w', id) <==> Guarding(w, id)) && (Unguarded(w', id) ==> Unguarded(w, id))
  {
    hide SlotsCounted, Moved, RowOk, Attended, OwnedLeases, LedgerEntries, Stores, Deletes, HasRoom, LedgerAdds,
         LedgerDrops, Counted, LeasesKept, LedgerKept, LeasesOf, Tracked, Owns, Union;
    if e.Act? && e.id == id {
      hide HoldsSlot, LiveGuard, Stage, SlotEffect, ActiveEffect;
      RowNext(w, e, id);
      ActKeepsRow(w, e);
      StageNeverFalls(w.rows[id], e.step);
    }
  }

  lemma {:induction false} AccountRun(w: World, es: seq<Event>, id: RowId)
    requires Inv(w) && Legal(w, es)
    ensures
      var t, w' := Account(w, es, id), Run(w, es);
      && t.entered - t.left == One(Holds(w', id)) - One(Holds(w, id))
      && t.built - t.uncounted == One(Guarding(w', id)) - One(Guarding(w, id))
      && t.built + One(Unguarded(w', id)) <= One(Unguarded(w, id))
    decreases |es|
  {
    hide Inv, Enabled, Next, Holds, Guarding, Unguarded;
    if es != [] {
      InvStep(w, es[0]);
      AccountStep(w, es[0], id);
      AccountRun(Next(w, es[0]), es[1..], id);
    }
  }

  /** Every interleaving, every request: it leaves as often as it entered, less one while it holds a slot; its
      guard is built at most once, and then counted out exactly once or still live. */
  lemma EveryEnterIsLeftOnce(es: seq<Event>, id: RowId)
    requires Legal(START, es)
    ensures
      var t, w := Account(START, es, id), Run(START, es);
      && t.left + One(Holds(w, id)) == t.entered
      && t.built <= 1 && t.uncounted + One(Guarding(w, id)) == t.built
  {
    hide Inv, Legal, Run, Account;
    StartInv();
    AccountRun(START, es, id);
  }

  // ------------------------------------------------------------------------------ at the end

  /** Some step of the run gives up leases, a slot, or a grant that was already sent. */
  ghost predicate AbandonsLeases(w: World, es: seq<Event>)
    requires Legal(w, es)
    decreases |es|
  {
    es != [] && ((es[0].Act? && Abandoned(w.rows[es[0].id], es[0].step) != {}) || AbandonsLeases(Next(w, es[0]), es[1..]))
  }

  ghost predicate LosesASlot(w: World, es: seq<Event>)
    requires Legal(w, es)
    decreases |es|
  {
    es != [] && ((es[0].Act? && LosesSlot(w.rows[es[0].id], es[0].step)) || LosesASlot(Next(w, es[0]), es[1..]))
  }

  ghost predicate LosesAGrant(w: World, es: seq<Event>)
    requires Legal(w, es)
    decreases |es|
  {
    es != [] && ((es[0].Act? && LosesGrant(w.rows[es[0].id], es[0].step)) || LosesAGrant(Next(w, es[0]), es[1..]))
  }

  ghost predicate SomeOrphan(w: World) { exists id :: id in w.rows && w.rows[id].orphans != {} }
  ghost predicate SomeLostSlot(w: World) { exists id :: id in w.rows && w.rows[id].lostSlot }
  ghost predicate SomeLostEntry(w: World) { exists id :: id in w.rows && w.rows[id].lostLedger != {} }

  lemma LossStep(w: World, e: Event)
    requires Enabled(w, e) && LeasesCounted(w)
    ensures SomeOrphan(Next(w, e)) <==> SomeOrphan(w) || (e.Act? && Abandoned(w.rows[e.id], e.step) != {})
    ensures SomeLostSlot(Next(w, e)) <==> SomeLostSlot(w) || (e.Act? && LosesSlot(w.rows[e.id], e.step))
    ensures SomeLostEntry(Next(w, e)) <==> SomeLostEntry(w) || (e.Act? && LosesGrant(w.rows[e.id], e.step))
  {
    hide Moved, RowOk, Attended, OwnedLeases, LedgerEntries, Stores, Deletes, Abandoned, HasRoom, CountsKept,
         LedgerApart, LedgerAdds, LedgerDrops, LosesSlot, LosesGrant, Owns, LeasesOf, Tracked, Named, Union, Counted, SlotEffect, ActiveEffect;
    var w' := Next(w, e);
    if e.Act? {
      ActKeepsRow(w, e);
      var r, r' := w.rows[e.id], Moved(w.rows[e.id], e.step).value;
      LossOfOneRow(w, e.id, r', w');
      assert r'.orphans != {} <==> r.orphans != {} || Abandoned(r, e.step) != {};
    } else if e.Arrive? {
      LossOfNewRow(w, e.id, NewRow(e.who), w');
    } else {
      assert w'.rows == w.rows;
    }
  }

  lemma LossOfNewRow(w: World, id: RowId, r: Row, w': World)
    requires id !in w.rows && w'.rows == w.rows[id := r] && r.orphans == {} && !r.lostSlot && r.lostLedger == {}
    ensures SomeOrphan(w') <==> SomeOrphan(w)
    ensures SomeLostSlot(w') <==> SomeLostSlot(w)
    ensures SomeLostEntry(w') <==> SomeLostEntry(w)
  {
    assert forall j :: j in w.rows ==> j in w'.rows && w'.rows[j] == w.rows[j];
  }

  lemma LossOfOneRow(w: World, id: RowId, r': Row, w': World)
    requires id in w.rows && w'.rows == w.rows[id := r']
    requires w.rows[id].orphans <= r'.orphans && (w.rows[id].lostSlot ==> r'.lostSlot) && (w.rows[id].lostLedger != {} ==> r'.lostLedger != {})
    ensures SomeOrphan(w') <==> SomeOrphan(w) || (r'.orphans != {})
    ensures SomeLostSlot(w') <==> SomeLostSlot(w) || r'.lostSlot
    ensures SomeLostEntry(w') <==> SomeLostEntry(w) || r'.lostLedger != {}
  {
    assert w'.rows[id] == r';
    assert forall j :: j in w.rows && j != id ==> j in w'.rows && w'.rows[j] == w.rows[j];
  }

  lemma {:induction false} LossRun(w: World, es: seq<Event>)
    requires Inv(w) && Legal(w, es)
    ensures SomeOrphan(Run(w, es)) <==> SomeOrphan(w) || AbandonsLeases(w, es)
    ensures SomeLostSlot(Run(w, es)) <==> SomeLostSlot(w) || LosesASlot(w, es)
    ensures SomeLostEntry(Run(w, es)) <==> SomeLostEntry(w) || LosesAGrant(w, es)
    decreases |es|
  {
    hide Enabled, Next, Abandoned, LosesSlot, LosesGrant, SomeOrphan, SomeLostSlot, SomeLostEntry, SlotsCounted, LeasesCounted;
    if es != [] {
      InvStep(w, es[0]);
      LossStep(w, es[0]);
      LossRun(Next(w, es[0]), es[1..]);
    }
  }

  ghost predicate AllFinished(w: World) { forall id :: id in w.rows ==> Finished(w.rows[id]) }

  lemma FinishedLeases(w: World)
    requires LeasesCounted(w) && AllFinished(w)
    ensures Union(w.owner, LeasesOf(w.rows)) == {} <==> !SomeOrphan(w)
    ensures w.ledger == {} <==> !SomeLostEntry(w)
  {
    hide RowOk, Finished, OwnedLeases, LedgerEntries, Attended;
    forall id | id in w.rows ensures OwnedLeases(w.rows[id]) == w.rows[id].orphans && LedgerEntries(w.rows[id]) == w.rows[id].lostLedger {
      FinishedHoldsNothing(w.rows[id]);
    }
    if SomeOrphan(w) {
      var id :| id in w.rows && w.rows[id].orphans != {};
      var l :| l in w.rows[id].orphans;
      InUnion(w.owner, LeasesOf(w.rows), id, l);
    }
    if SomeLostEntry(w) {
      var id :| id in w.rows && w.rows[id].lostLedger != {};
      var l :| l in w.rows[id].lostLedger;
      InUnion(w.owner, Tracked(w.rows), id, l);
    }
  }

  lemma FinishedSlots(w: World)
    requires Inv(w) && AllFinished(w)
    ensures w.active == 0
    ensures w.tenants == map[] && w.applications == map[] <==> !SomeLostSlot(w)
  {
    hide RowOk, Finished, OwnedLeases, LedgerEntries, Attended, HoldsSlot, LiveGuard, Union, Owns, LeasesOf, Tracked;
    forall id | id in w.rows ensures (HoldsSlot(w.rows[id]) <==> w.rows[id].lostSlot) && !LiveGuard(w.rows[id]) {
      FinishedHoldsNothing(w.rows[id]);
    }
    assert Guards(w.rows) == {};
    if SomeLostSlot(w) {
      var id :| id in w.rows && w.rows[id].lostSlot;
      HolderIsCounted(w, id);
    } else {
      forall t ensures Count(w.tenants, t) == 0 { assert TenantHolders(w.rows, t) == {}; }
      forall a ensures Count(w.applications, a) == 0 { assert ApplicationHolders(w.rows, a) == {}; }
      assert forall t :: t in w.tenants ==> Count(w.tenants, t) > 0;
      assert forall a :: a in w.applications ==> Count(w.applications, a) > 0;
    }
  }

  /** Every interleaving that ends with all requests finished: no guard is counted as active; every slot
      has been given back if and only if no request future was dropped while it claimed or while an
      unread grant was in its channel; every ledger entry, if and only if no sent grant was dropped
      unread; every lease, if and only if no release was given up. */
  lemma EverythingIsGivenBack(es: seq<Event>)
    requires Legal(START, es) && AllFinished(Run(START, es))
    ensures
      var w := Run(START, es);
      && w.active == 0
      && (w.tenants == map[] && w.applications == map[] <==> !LosesASlot(START, es))
      && (w.ledger == {} <==> !LosesAGrant(START, es))
      && (Union(w.owner, LeasesOf(w.rows)) == {} <==> !AbandonsLeases(START, es))
  {
    hide AllFinished, Union, LeasesOf, Inv, LosesASlot, LosesAGrant, AbandonsLeases;
    StartInv();
    AccountingIsExact(es);
    LossRun(START, es);
    var w := Run(START, es);
    FinishedSlots(w);
    InvParts(w);
    FinishedLeases(w);
  }

  /** An attempt under way, a grant in the channel or a live guard: a slot that somebody will give back. */
  predicate AttendsSlot(r: Row) { HandlerHoldsSlot(r.h) || DispatcherHoldsSlot(r.d) || r.channel.Full? }

  ghost function AttendingTenant(rows: map<RowId, Row>, tenant: string): set<RowId>
  {
    set id | id in rows && AttendsSlot(rows[id]) && rows[id].who.tenant == tenant
  }

  ghost function AttendingApplication(rows: map<RowId, Row>, application: string): set<RowId>
  {
    set id | id in rows && AttendsSlot(rows[id]) && rows[id].who.application == application
  }

  ghost predicate CountsAttended(w: World)
  {
    && (forall t :: Count(w.tenants, t) == |AttendingTenant(w.rows, t)|)
    && (forall a :: Count(w.applications, a) == |AttendingApplication(w.rows, a)|)
  }

  lemma LostSlotIsNotAttended(r: Row)
    requires Phases(r)
    ensures HoldsSlot(r) <==> AttendsSlot(r) || r.lostSlot
    ensures r.lostSlot ==> !AttendsSlot(r)
  {
  }

  lemma FewerAttend(all: set<RowId>, some: set<RowId>, id: RowId)
    requires some <= all && id in all && id !in some
    ensures |some| < |all|
  {
    assert some <= all - {id};
    Fewer(some, all - {id});
  }

  lemma {:induction false} Fewer(a: set<RowId>, b: set<RowId>)
    requires a <= b
    ensures |a| <= |b|
    decreases a
  {
    if a != {} {
      var x :| x in a;
      Fewer(a - {x}, b - {x});
    }
  }

  lemma AttendedUnlessLost(w: World)
    requires Inv(w)
    ensures CountsAttended(w) <==> !SomeLostSlot(w)
  {
    forall id | id in w.rows ensures
      (HoldsSlot(w.rows[id]) <==> AttendsSlot(w.rows[id]) || w.rows[id].lostSlot) && (w.rows[id].lostSlot ==> !AttendsSlot(w.rows[id]))
    {
      RowOfInv(w, id);
      LostSlotIsNotAttended(w.rows[id]);
    }
    hide HoldsSlot, AttendsSlot, LeasesCounted;
    if SomeLostSlot(w) {
      var id :| id in w.rows && w.rows[id].lostSlot;
      var t := w.rows[id].who.tenant;
      FewerAttend(TenantHolders(w.rows, t), AttendingTenant(w.rows, t), id);
      assert Count(w.tenants, t) != |AttendingTenant(w.rows, t)|;
    } else {
      forall t ensures TenantHolders(w.rows, t) == AttendingTenant(w.rows, t) {}
      forall a ensures ApplicationHolders(w.rows, a) == AttendingApplication(w.rows, a) {}
    }
  }

  /** Every interleaving: each counter is exactly the attempts, sent grants and live guards under its name if
      and only if no request future was dropped while it claimed or with an unread grant in its channel. */
  lemma CountersExactIffNoSlotLost(es: seq<Event>)
    requires Legal(START, es)
    ensures CountsAttended(Run(START, es)) <==> !LosesASlot(START, es)
  {
    hide Inv, Legal, Run, CountsAttended, LosesASlot;
    StartInv();
    AccountingIsExact(es);
    LossRun(START, es);
    AttendedUnlessLost(Run(START, es));
  }
}
