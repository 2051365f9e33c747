/** What every single step keeps of one request, and what it takes or gives back outside of it. */
module AdmissionSteps {
  import opened Sums
  import opened Concurrency
  import opened AdmissionRow

  function One(b: bool): nat { if b then 1 else 0 }

  /** The lease a step obtains is new. */
  predicate Fresh(r: Row, s: Step) { Stores(s) !! OwnedLeases(r) }

  // ------------------------------------------------------------------------------ one reservation

  /** A reservation owns exactly what it stored and has not deleted. */
  lemma ClaimOwns(c: Claim, m: ClaimMove)
    requires c.Distinct() && ClaimNext(c, m).Some? && Takes(m) !! c.Leases()
    ensures ClaimNext(c, m).value.Distinct()
    ensures ClaimNext(c, m).value.Leases() == c.Leases() + Takes(m) - ClaimReleases(c, m)
    ensures ClaimReleases(c, m) <= c.Leases()
  {
  }

  lemma FirstOfRest(rest: seq<LeaseId>)
    requires rest != [] && NoRepeats(rest)
    ensures NoRepeats(rest[1..])
    ensures (set l | l in rest[1..]) == (set l | l in rest) - {rest[0]}
  {
    assert rest == [rest[0]] + rest[1..];
    forall l | l in rest[1..] ensures l != rest[0] {
      var i :| 0 <= i < |rest[1..]| && rest[1..][i] == l;
      assert rest[i + 1] == l;
    }
  }

  lemma GrantReleaseOrder(g: Grant)
    ensures (set l | l in g.ReleaseOrder()) == g.Leases()
    ensures g.Distinct() ==> NoRepeats(g.ReleaseOrder())
  {
  }

  // ------------------------------------------------------------------------------------- phases

  lemma HandlerPhases(r: Row, s: Step)
    requires Phases(r) && HandlerMoved(r, s).Some?
    ensures Phases(HandlerMoved(r, s).value) && HandlerMoved(r, s).value.who == r.who
  {
    hide ClaimNext;
  }

  lemma GuardPhases(r: Row, s: Step)
    requires Phases(r) && GuardMoved(r, s).Some?
    ensures Phases(GuardMoved(r, s).value) && GuardMoved(r, s).value.who == r.who
  {
  }

  lemma DispatchPhases(r: Row, s: Step)
    requires Phases(r) && DispatchMoved(r, s).Some?
    ensures Phases(DispatchMoved(r, s).value) && DispatchMoved(r, s).value.who == r.who
  {
    hide ClaimNext;
  }

  lemma PhasesKept(r: Row, s: Step)
    requires Phases(r) && Moved(r, s).Some?
    ensures Phases(Moved(r, s).value) && Moved(r, s).value.who == r.who
  {
    hide HandlerMoved, GuardMoved, DispatchMoved, Phases;
    if ByDispatcher(s) {
      DispatchPhases(r, s);
    } else if ByGuard(s) {
      GuardPhases(r, s);
    } else {
      HandlerPhases(r, s);
    }
  }

  // ---------------------------------------------------------------------- slots, guards and grants

  /** A request holds at most one slot; a step changes that by exactly its enters and leaves, and the
      number of live guards by exactly its count up or down. The dispatcher grants it at most once,
      and only while its handler still listens. */
  predicate CountsKept(r: Row, s: Step, r': Row)
  {
    && One(HoldsSlot(r')) == One(HoldsSlot(r)) + SlotEffect(s)
    && One(LiveGuard(r')) == One(LiveGuard(r)) + ActiveEffect(s)
    && r'.grants == r.grants + One(s.Send? && r.channel.Open?) <= 1
  }

  lemma HandlerCounts(r: Row, s: Step)
    requires Phases(r) && !ByDispatcher(s) && !ByGuard(s) && HandlerMoved(r, s).Some?
    ensures CountsKept(r, s, HandlerMoved(r, s).value)
  {
    hide ClaimNext;
  }

  lemma GuardCounts(r: Row, s: Step)
    requires Phases(r) && ByGuard(s) && GuardMoved(r, s).Some?
    ensures CountsKept(r, s, GuardMoved(r, s).value)
  {
  }

  lemma DispatchCounts(r: Row, s: Step)
    requires Phases(r) && ByDispatcher(s) && DispatchMoved(r, s).Some?
    ensures CountsKept(r, s, DispatchMoved(r, s).value)
  {
    hide ClaimNext;
  }

  lemma StepCounts(r: Row, s: Step)
    requires Phases(r) && Moved(r, s).Some?
    ensures CountsKept(r, s, Moved(r, s).value)
  {
    hide HandlerMoved, GuardMoved, DispatchMoved, Phases, CountsKept;
    if ByDispatcher(s) {
      DispatchCounts(r, s);
    } else if ByGuard(s) {
      GuardCounts(r, s);
    } else {
      HandlerCounts(r, s);
    }
  }

  // -------------------------------------------------------------------------------------- leases

  /** What a request attends to changes by exactly what the step stores, deletes and gives up. */
  predicate LeasesKept(r: Row, s: Step, r': Row)
  {
    && Attended(r') == Attended(r) + Stores(s) - Deletes(r, s) - Abandoned(r, s)
    && r'.orphans == r.orphans + Abandoned(r, s)
    && Deletes(r, s) + Abandoned(r, s) <= Attended(r)
    && Deletes(r, s) !! Abandoned(r, s)
  }

  lemma HandlerShape(r: Row, s: Step)
    requires RowOk(r) && Fresh(r, s) && !ByDispatcher(s) && !ByGuard(s) && HandlerMoved(r, s).Some?
    ensures Shape(HandlerMoved(r, s).value)
  {
    OnlyTheClaim(r);
    if s.HandlerClaim? { ClaimOwns(r.h.claim, s.move); }
    hide Claim.Leases, ClaimNext, ClaimReleases, Takes, Grant.Leases, Grant.Distinct, NoRepeats, Attended, Stores, OwnedLeases, LedgerApart;
  }

  lemma GuardShape(r: Row, s: Step)
    requires RowOk(r) && ByGuard(s) && GuardMoved(r, s).Some?
    ensures Shape(GuardMoved(r, s).value)
  {
    if r.h.Completing? && s.ReleaseHeld? { FirstOfRest(r.h.rest); }
    if s.SettleInBackground? { FirstOfRest(r.settling); }
    if r.h.Guarded? && r.h.held.Some? { GrantReleaseOrder(r.h.held.value); }
    assert NoRepeats([]);
    hide Claim.Leases, Grant.Leases, Grant.Distinct, Grant.ReleaseOrder, NoRepeats, Attended, LedgerApart;
  }

  lemma DispatchShape(r: Row, s: Step)
    requires RowOk(r) && Fresh(r, s) && ByDispatcher(s) && DispatchMoved(r, s).Some?
    ensures Shape(DispatchMoved(r, s).value)
  {
    OnlyTheClaim(r);
    if s.DispatchClaim? { ClaimOwns(r.d.claim, s.move); }
    if r.d.Undoing? && s.UndoSent? { FirstOfRest(r.d.rest); }
    if r.d.Sending? { GrantReleaseOrder(r.d.grant); }
    hide Claim.Leases, ClaimNext, ClaimReleases, Takes, Grant.Leases, Grant.Distinct, Grant.ReleaseOrder, NoRepeats, Attended, Stores, OwnedLeases, LedgerApart;
  }

  /** While a handler claims, nothing else of the request owns a lease. */
  lemma OnlyTheClaim(r: Row)
    requires RowOk(r)
    ensures r.h.Claiming? ==> Attended(r) == r.h.claim.Leases()
    ensures r.d.Attempt? ==> Attended(r) == r.d.claim.Leases()
  {
    hide Claim.Leases, NoRepeats;
    assert r.h.Claiming? || r.d.Attempt? ==> r.settling == [];
  }

  lemma HandlerClaimKept(r: Row, m: ClaimMove)
    requires RowOk(r) && Fresh(r, HandlerClaim(m)) && HandlerMoved(r, HandlerClaim(m)).Some?
    ensures LeasesKept(r, HandlerClaim(m), HandlerMoved(r, HandlerClaim(m)).value)
  {
    var r' := HandlerMoved(r, HandlerClaim(m)).value;
    OnlyTheClaim(r);
    ClaimOwns(r.h.claim, m);
    hide ClaimNext, ClaimReleases, Takes, Claim.Leases, Claim.Distinct, NoRepeats;
    assert Attended(r') == r'.h.claim.Leases();
  }

  lemma HandlerLeasesKept(r: Row, s: Step)
    requires RowOk(r) && !ByDispatcher(s) && !ByGuard(s) && !s.HandlerClaim? && HandlerMoved(r, s).Some?
    ensures LeasesKept(r, s, HandlerMoved(r, s).value)
  {
    hide Grant.Leases, Grant.Distinct, NoRepeats, LedgerApart;
    if s.CoordinatorDown? || s.ClientGone? || s.TimeOut? || s.Receive? {
      HandlerLeavesKept(r, s);
    } else {
      var r' := HandlerMoved(r, s).value;
      assert r'.d == r.d && r'.settling == r.settling && ChannelLeases(r'.channel) == ChannelLeases(r.channel);
      assert HandlerLeases(r'.h) == HandlerLeases(r.h);
    }
  }

  lemma HandlerLeavesKept(r: Row, s: Step)
    requires RowOk(r) && (s.CoordinatorDown? || s.ClientGone? || s.TimeOut? || s.Receive?) && HandlerMoved(r, s).Some?
    ensures LeasesKept(r, s, HandlerMoved(r, s).value)
  {
    OnlyTheClaim(r);
    hide Grant.Leases, Grant.Distinct, NoRepeats, LedgerApart;
  }

  lemma GuardAlone(r: Row)
    requires RowOk(r) && LiveGuard(r)
    ensures DispatchLeases(r.d) == {} && ChannelLeases(r.channel) == {} && (r.h.Completing? ==> NoRepeats(r.h.rest))
    ensures r.h.Guarded? || r.h.Completing? ==> r.settling == []
  {
    hide NoRepeats, Attended, LedgerApart;
  }

  lemma ReleaseHeldKept(r: Row, s: Step)
    requires RowOk(r) && s.ReleaseHeld? && GuardMoved(r, s).Some?
    ensures LeasesKept(r, s, GuardMoved(r, s).value)
  {
    GuardAlone(r);
    FirstOfRest(r.h.rest);
    hide RowOk, Grant.Leases, Grant.ReleaseOrder, NoRepeats;
  }

  lemma GuardLeasesKept(r: Row, s: Step)
    requires RowOk(r) && ByGuard(s) && GuardMoved(r, s).Some?
    ensures LeasesKept(r, s, GuardMoved(r, s).value)
  {
    if s.SettleInBackground? {
      hide *;
      BackgroundKept(r, s);
    } else if s.ReleaseHeld? {
      hide *;
      ReleaseHeldKept(r, s);
    } else {
      GuardAlone(r);
      hide RowOk, Grant.Leases, Grant.ReleaseOrder, NoRepeats;
      if r.h.Guarded? && r.h.held.Some? {
        GrantReleaseOrder(r.h.held.value);
      }
    }
  }

  lemma BackgroundKept(r: Row, s: Step)
    requires RowOk(r) && s.SettleInBackground? && GuardMoved(r, s).Some?
    ensures LeasesKept(r, s, GuardMoved(r, s).value)
  {
    assert HandlerLeases(r.h) == {} && DispatchLeases(r.d) == {} && ChannelLeases(r.channel) == {};
    FirstOfRest(r.settling);
    hide HandlerLeases, DispatchLeases, ChannelLeases, Phases, Shape, NoRepeats, LedgerApart;
  }

  lemma DispatchClaimKept(r: Row, m: ClaimMove)
    requires RowOk(r) && Fresh(r, DispatchClaim(m)) && DispatchMoved(r, DispatchClaim(m)).Some?
    ensures LeasesKept(r, DispatchClaim(m), DispatchMoved(r, DispatchClaim(m)).value)
  {
    var r' := DispatchMoved(r, DispatchClaim(m)).value;
    OnlyTheClaim(r);
    ClaimOwns(r.d.claim, m);
    hide ClaimNext, ClaimReleases, Takes, Claim.Leases, Claim.Distinct, NoRepeats;
    assert Attended(r') == r'.d.claim.Leases();
  }

  lemma DispatchLeasesKept(r: Row, s: Step)
    requires RowOk(r) && ByDispatcher(s) && !s.DispatchClaim? && DispatchMoved(r, s).Some?
    ensures LeasesKept(r, s, DispatchMoved(r, s).value)
  {
    hide Grant.Leases, Grant.Distinct, Grant.ReleaseOrder, NoRepeats, LedgerApart;
    if s.Send? || s.UndoSent? || s.DispatchGiveBack? {
      DispatchLeavesKept(r, s);
    } else {
      var r' := DispatchMoved(r, s).value;
      assert r'.h == r.h && r'.settling == r.settling && ChannelLeases(r'.channel) == ChannelLeases(r.channel);
      assert DispatchLeases(r'.d) == DispatchLeases(r.d);
    }
  }

  /** While the dispatcher holds leases of a request nothing else of the request does. */
  lemma DispatcherAlone(r: Row)
    requires RowOk(r) && (r.d.Sending? || r.d.Undoing? || r.d.Attempt?)
    ensures HandlerLeases(r.h) == {} && r.settling == [] && ChannelLeases(r.channel) == {} && Attended(r) == DispatchLeases(r.d)
    ensures r.d.Undoing? ==> NoRepeats(r.d.rest)
  {
    hide DispatchLeases, NoRepeats, Grant.Leases, LedgerApart;
  }

  lemma DispatchLeavesKept(r: Row, s: Step)
    requires RowOk(r) && (s.Send? || s.UndoSent? || s.DispatchGiveBack?) && DispatchMoved(r, s).Some?
    ensures LeasesKept(r, s, DispatchMoved(r, s).value)
  {
    DispatcherAlone(r);
    hide HandlerLeases, RowOk, Grant.Leases, Grant.ReleaseOrder, NoRepeats;
    if s.UndoSent? {
      FirstOfRest(r.d.rest);
    } else if s.Send? {
      GrantReleaseOrder(r.d.grant);
    }
  }

  lemma StepLeases(r: Row, s: Step)
    requires RowOk(r) && Fresh(r, s) && Moved(r, s).Some?
    ensures LeasesKept(r, s, Moved(r, s).value) && LeasesApart(Moved(r, s).value)
  {
    hide HandlerMoved, GuardMoved, DispatchMoved, RowOk, Shape, Attended, Stores, Deletes, Abandoned, Fresh;
    if ByDispatcher(s) {
      DispatchShape(r, s);
      if s.DispatchClaim? { DispatchClaimKept(r, s.move); } else { DispatchLeasesKept(r, s); }
    } else if ByGuard(s) {
      GuardShape(r, s);
      GuardLeasesKept(r, s);
    } else {
      HandlerShape(r, s);
      if s.HandlerClaim? { HandlerClaimKept(r, s.move); } else { HandlerLeasesKept(r, s); }
    }
    ApartKept(r, s);
  }

  lemma ApartKept(r: Row, s: Step)
    requires RowOk(r) && Fresh(r, s)
    ensures Attended(r) !! r.orphans && Stores(s) !! Attended(r) + r.orphans
  {
    hide Attended, Stores;
  }

  // ------------------------------------------------------------------------------------ the ledger

  /** The ledger entries of a request change by exactly what the step tracks and releases; nothing is
      tracked twice and nothing is released that is not there. */
  predicate LedgerKept(r: Row, s: Step, r': Row)
  {
    && LedgerApart(r')
    && LedgerEntries(r') == LedgerEntries(r) + LedgerAdds(r, s) - LedgerDrops(r, s)
    && LedgerAdds(r, s) !! LedgerEntries(r)
    && LedgerDrops(r, s) <= LedgerEntries(r)
    && LedgerAdds(r, s) <= Attended(r)
    && (r'.lostSlot <==> r.lostSlot || LosesSlot(r, s))
    && (r'.lostLedger != {} <==> r.lostLedger != {} || LosesGrant(r, s))
  }

  lemma HandlerLedger(r: Row, s: Step)
    requires RowOk(r) && !ByDispatcher(s) && !ByGuard(s) && HandlerMoved(r, s).Some?
    ensures LedgerKept(r, s, HandlerMoved(r, s).value)
  {
    if s.ClientGone? || s.TimeOut? || s.CoordinatorDown? {
      hide *;
      HandlerLedgerLosses(r, s);
    } else {
      hide ClaimNext, Claim.Leases, Claim.Distinct, NoRepeats, Grant.Distinct;
    }
  }

  lemma HandlerLedgerLosses(r: Row, s: Step)
    requires RowOk(r) && (s.ClientGone? || s.TimeOut? || s.CoordinatorDown?) && HandlerMoved(r, s).Some?
    ensures LedgerKept(r, s, HandlerMoved(r, s).value)
  {
    hide ClaimNext, Claim.Leases, Claim.Distinct, NoRepeats, Grant.Distinct, Attended;
  }

  lemma GuardLedger(r: Row, s: Step)
    requires RowOk(r) && ByGuard(s) && GuardMoved(r, s).Some?
    ensures LedgerKept(r, s, GuardMoved(r, s).value)
  {
    hide NoRepeats, Grant.Distinct, Grant.Leases, Attended;
  }

  lemma DispatchLedger(r: Row, s: Step)
    requires RowOk(r) && ByDispatcher(s) && DispatchMoved(r, s).Some?
    ensures LedgerKept(r, s, DispatchMoved(r, s).value)
  {
    if s.Send? || s.DispatchTrack? || s.UndoLedger? {
      hide *;
      DispatchLedgerMoves(r, s);
    } else {
      hide ClaimNext, Claim.Leases, Claim.Distinct, NoRepeats, Grant.Distinct, Attended;
    }
  }

  lemma DispatchLedgerMoves(r: Row, s: Step)
    requires RowOk(r) && (s.Send? || s.DispatchTrack? || s.UndoLedger?) && DispatchMoved(r, s).Some?
    ensures LedgerKept(r, s, DispatchMoved(r, s).value)
  {
    hide ClaimNext, Claim.Leases, Claim.Distinct, NoRepeats, Grant.Distinct;
  }

  lemma StepLedger(r: Row, s: Step)
    requires RowOk(r) && Moved(r, s).Some?
    ensures LedgerKept(r, s, Moved(r, s).value)
  {
    hide HandlerMoved, GuardMoved, DispatchMoved, RowOk, LedgerKept;
    if ByDispatcher(s) {
      DispatchLedger(r, s);
    } else if ByGuard(s) {
      GuardLedger(r, s);
    } else {
      HandlerLedger(r, s);
    }
  }

  /** Every step of every request keeps all of it. */
  lemma StepKeeps(r: Row, s: Step)
    requires RowOk(r) && Fresh(r, s) && Moved(r, s).Some?
    ensures
      var r' := Moved(r, s).value;
      RowOk(r') && r'.who == r.who && CountsKept(r, s, r') && LeasesKept(r, s, r') && LedgerKept(r, s, r')
  {
    StepLeases(r, s);
    StepLedger(r, s);
    PhasesKept(r, s);
    StepCounts(r, s);
    hide Moved, Phases, LeasesApart, LedgerApart, CountsKept, LeasesKept;
  }

  // ------------------------------------------------------------------------- what is left at the end

  /** Neither handler nor dispatcher nor settlement task has anything more to do. */
  predicate Finished(r: Row) { r.h.Gone? && r.d.Idle? && r.settling == [] }

  /** A finished request holds only what was abandoned on the way. */
  lemma FinishedHoldsNothing(r: Row)
    requires RowOk(r) && Finished(r)
    ensures Attended(r) == {} && OwnedLeases(r) == r.orphans && LedgerEntries(r) == r.lostLedger
    ensures (HoldsSlot(r) <==> r.lostSlot) && !LiveGuard(r)
  {
    hide NoRepeats;
  }

  // --------------------------------------------------------------------- the order of giving back

  /** The capacity of a grant is released first, then the application's slot, then the tenant's: by completion, by the
      task of a dropped guard, and by a dispatcher whose grant was refused. */
  lemma GivenBackInOrder(r: Row, g: Grant, first: LeaseId, second: LeaseId, third: LeaseId)
    requires g.capacity == first && g.applicationSlot == second && g.tenantSlot == third
    ensures r.h == Guarded(Some(g)) ==> GuardMoved(r, Finish) == Some(r.(h := Completing([first, second, third], first)))
    ensures r.h == Guarded(Some(g)) ==> GuardMoved(r, DropGuard) == Some(r.(h := Leaving, settling := [first, second, third]))
    ensures r.d == Sending(g) && !r.channel.Open? ==> DispatchMoved(r, Send) == Some(r.(d := Undoing([first, second, third], first)))
  {
  }

  /** Each release takes the first of those that are left. */
  lemma ReleasesTheFirst(r: Row, first: LeaseId, rest: seq<LeaseId>, capacity: LeaseId)
    ensures r.h == Completing([first] + rest, capacity) ==>
              Deletes(r, ReleaseHeld(true)) == {first} && GuardMoved(r, ReleaseHeld(true)) == Some(r.(h := Completing(rest, capacity)))
    ensures r.settling == [first] + rest ==>
              Deletes(r, SettleInBackground(true)) == {first} && GuardMoved(r, SettleInBackground(true)) == Some(r.(settling := rest))
    ensures r.d == Undoing([first] + rest, capacity) ==>
              Deletes(r, UndoSent(true)) == {first} && DispatchMoved(r, UndoSent(true)) == Some(r.(d := Undoing(rest, capacity)))
  {
    assert ([first] + rest)[1..] == rest && r.orphans + {} == r.orphans;
  }
}
