/** One three-lease attempt among all the others: what the coordinator and the ledger hold for it while it
    runs, when it ends, and after its grant was refused by the channel. */
module AdmissionAttempts {
  import opened Sums
  import opened Concurrency
  import opened AdmissionRow
  import opened AdmissionSteps
  import opened Ownership
  import opened AdmissionRuns
  import opened AdmissionWaits

  // ------------------------------------------------------------------------------ where a lease is

  /** In every interleaving, a lease once stored for a request is in the coordinator exactly while the request
      owns it and it has not expired, and in the ledger exactly while the request tracks it. */
  lemma Whereabouts(es: seq<Event>, l: LeaseId)
    requires Legal(START, es)
    ensures
      var w := Run(START, es);
      && (l in w.stored || l in w.ledger ==> l in w.owner && w.owner[l] in w.rows)
      && (l in w.owner && w.owner[l] in w.rows ==>
            && (l in w.stored <==> l in OwnedLeases(w.rows[w.owner[l]]) && l !in w.expired)
            && (l in w.ledger <==> l in LedgerEntries(w.rows[w.owner[l]])))
  {
    AccountingIsExact(es);
    WhereIn(Run(START, es), l);
  }

  lemma WhereIn(w: World, l: LeaseId)
    requires Inv(w)
    ensures l in w.stored || l in w.ledger ==> l in w.owner && w.owner[l] in w.rows
    ensures l in w.owner && w.owner[l] in w.rows ==>
              && (l in w.stored <==> l in OwnedLeases(w.rows[w.owner[l]]) && l !in w.expired)
              && (l in w.ledger <==> l in LedgerEntries(w.rows[w.owner[l]]))
  {
    hide SlotsCounted, RowOk, OwnedLeases, LedgerEntries;
  }

  lemma OwnerOf(w: World, id: RowId, l: LeaseId)
    requires Inv(w) && id in w.rows && l in OwnedLeases(w.rows[id])
    ensures l in w.owner && w.owner[l] == id
  {
    hide SlotsCounted, RowOk, OwnedLeases, LedgerEntries;
    assert l in LeasesOf(w.rows)[id];
  }

  // --------------------------------------------------------------------------- an attempt under way

  /** The reservation that the handler or the dispatcher has under way for a request. */
  function OpenClaim(r: Row): Option<Claim>
  {
    if r.h.Claiming? then Some(r.h.claim) else if r.d.Attempt? then Some(r.d.claim) else None
  }

  /** While a reservation is under way it is all that the request attends to, and nothing is tracked. */
  lemma OnlyTheOpenClaim(r: Row)
    requires RowOk(r) && OpenClaim(r).Some?
    ensures Attended(r) == OpenClaim(r).value.Leases() && LedgerEntries(r) == {} && OpenClaim(r).value.Distinct()
  {
    OnlyTheClaim(r);
    hide Claim.Leases, Claim.Distinct, Attended, NoRepeats;
  }

  /** No step leads out of a reservation and into one again. */
  lemma ClaimStaysApart(r: Row, s: Step)
    requires RowOk(r) && Fresh(r, s) && Moved(r, s).Some? && OpenClaim(r).Some? && OpenClaim(Moved(r, s).value).Some?
    ensures Moved(r, s).value.orphans == r.orphans
    ensures OpenClaim(Moved(r, s).value).value.Leases() <= OpenClaim(r).value.Leases() + Stores(s)
  {
    NothingAbandoned(r, s);
    hide Moved, Attended, Stores, Deletes, Abandoned, OpenClaim, RowOk, CountsKept, LedgerKept, Claim.Leases;
    var r' := Moved(r, s).value;
    StepKeeps(r, s);
    OnlyTheOpenClaim(r);
    OnlyTheOpenClaim(r');
  }

  lemma NothingAbandoned(r: Row, s: Step)
    requires Phases(r) && Shape(r) && Moved(r, s).Some? && OpenClaim(r).Some? && OpenClaim(Moved(r, s).value).Some?
    ensures Abandoned(r, s) == {}
  {
    hide ClaimNext, Claim.Leases, Claim.Distinct, Grant.Distinct, NoRepeats;
  }

  /** The same reservation is under way from the beginning of the run to its end. */
  ghost predicate Attempting(w: World, es: seq<Event>, id: RowId)
    requires Legal(w, es)
    decreases |es|
  {
    && id in w.rows && OpenClaim(w.rows[id]).Some?
    && (es != [] ==> Attempting(Next(w, es[0]), es[1..], id))
  }

  /** Leases that the coordinator holds for a request and that were not yet stored in an earlier state. */
  ghost function StoredSince(w: World, w': World, id: RowId): set<LeaseId>
  {
    set l | l in w'.stored && l in w'.owner && w'.owner[l] == id && l !in w.owner
  }

  lemma OwnersGrow(w: World, e: Event)
    requires Enabled(w, e)
    ensures w.owner.Keys <= Next(w, e).owner.Keys
  {
    hide Moved, HasRoom, Stores, Deletes, LedgerAdds, LedgerDrops, SlotEffect, ActiveEffect, Counted;
  }

  /** A step of the run keeps the leases of the reservation new and orphans as they were. */
  lemma AttemptStep(w: World, e: Event, id: RowId, old': set<LeaseId>)
    requires Inv(w) && Enabled(w, e) && id in w.rows && OpenClaim(w.rows[id]).Some?
    requires id in Next(w, e).rows && OpenClaim(Next(w, e).rows[id]).Some?
    requires old' <= w.owner.Keys && OpenClaim(w.rows[id]).value.Leases() !! old'
    ensures Next(w, e).rows[id].orphans == w.rows[id].orphans
    ensures OpenClaim(Next(w, e).rows[id]).value.Leases() !! old'
  {
    RowNext(w, e, id);
    if e.Act? && e.id == id {
      InvParts(w);
      ActIsFresh(w, e);
      hide Inv, LeasesCounted, Moved, RowOk, Fresh, Stores, OpenClaim, Claim.Leases, HasRoom, Next;
      ClaimStaysApart(w.rows[id], e.step);
    }
  }

  lemma {:induction false} AttemptRun(w: World, es: seq<Event>, id: RowId, old': set<LeaseId>)
    requires Inv(w) && Legal(w, es) && Attempting(w, es, id)
    requires old' <= w.owner.Keys && OpenClaim(w.rows[id]).value.Leases() !! old'
    ensures
      var w' := Run(w, es);
      && Inv(w') && id in w'.rows && OpenClaim(w'.rows[id]).Some?
      && w'.rows[id].orphans == w.rows[id].orphans && OpenClaim(w'.rows[id]).value.Leases() !! old'
    decreases |es|
  {
    hide Inv, Enabled, Next, OpenClaim, Claim.Leases;
    if es != [] {
      InvStep(w, es[0]);
      OwnersGrow(w, es[0]);
      AttemptStep(w, es[0], id, old');
      AttemptRun(Next(w, es[0]), es[1..], id, old');
    }
  }

  /** In every interleaving, from the moment a reservation begins until it is decided, the coordinator holds for
      it exactly the unexpired ones of the leases it lists and the ledger none of them. So a complete grant has
      its three leases, and one that was not granted has left none. */
  lemma AllOrNothing(es: seq<Event>, during: seq<Event>, id: RowId)
    requires Legal(START, es) && Legal(Run(START, es), during) && Attempting(Run(START, es), during, id)
    requires OpenClaim(Run(START, es).rows[id]).value.Entered?
    ensures
      var w, w' := Run(START, es), Run(Run(START, es), during);
      && id in w'.rows && OpenClaim(w'.rows[id]).Some?
      && var c := OpenClaim(w'.rows[id]).value;
      && StoredSince(w, w', id) == c.Leases() - w'.expired && c.Leases() !! w'.ledger
      && (c.Complete? ==> c.Leases() == c.grant.Leases() && c.grant.Distinct())
      && (c.NoneGranted? ==> StoredSince(w, w', id) == {})
  {
    var w, w' := Run(START, es), Run(Run(START, es), during);
    AccountingIsExact(es);
    assert OpenClaim(w.rows[id]).value.Leases() == {};
    hide Inv, Legal, Run, RowOk, OpenClaim, Attended, Attempting, Claim.Leases, StoredSince;
    AttemptRun(w, during, id, w.owner.Keys);
    RowOfInv(w', id);
    OnlyTheOpenClaim(w'.rows[id]);
    StoredIsListed(w, w', id);
    Decided(OpenClaim(w'.rows[id]).value);
  }

  lemma Decided(c: Claim)
    requires c.Distinct()
    ensures c.Complete? ==> c.Leases() == c.grant.Leases() && c.grant.Distinct()
    ensures c.NoneGranted? ==> c.Leases() == {}
  {
  }

  lemma StoredIsListed(w: World, w': World, id: RowId)
    requires Inv(w) && Inv(w') && id in w.rows && id in w'.rows && OpenClaim(w'.rows[id]).Some?
    requires w'.rows[id].orphans == w.rows[id].orphans && OpenClaim(w'.rows[id]).value.Leases() !! w.owner.Keys
    requires Attended(w'.rows[id]) == OpenClaim(w'.rows[id]).value.Leases() && LedgerEntries(w'.rows[id]) == {}
    ensures StoredSince(w, w', id) == OpenClaim(w'.rows[id]).value.Leases() - w'.expired
    ensures OpenClaim(w'.rows[id]).value.Leases() !! w'.ledger
  {
    hide Inv, RowOk, Attended, LedgerEntries, OpenClaim, Claim.Leases;
    var c := OpenClaim(w'.rows[id]).value;
    forall l | l in c.Leases() ensures l in w'.owner && w'.owner[l] == id && l !in w'.ledger {
      OwnerOf(w', id, l);
      WhereIn(w', l);
    }
    forall l ensures l in StoredSince(w, w', id) <==> l in c.Leases() - w'.expired {
      WhereIn(w', l);
      if l in w.rows[id].orphans { OwnerOf(w, id, l); }
    }
  }

  // ------------------------------------------------------------------------------ a refused grant

  /** The grant could not be sent, and its leases, ledger entry and slot are on their way back. */
  predicate Retreating(r: Row, g: Grant)
  {
    && Ended(r.h) && r.channel.Closed? && !r.queued && !r.pending && r.settling == [] && r.grants == 0 && !r.lostSlot
    && r.orphans !! g.Leases()
    && match r.d
       case Sending(g') => g' == g
       case Undoing(rest, c) => c == g.capacity && (set l | l in rest) <= g.Leases() && |rest| <= 3
       case Vacating => true
       case Idle => true
       case _ => false
  }

  lemma RefusedBegins(r: Row)
    requires RowOk(r) && r.d.Sending? && r.channel.Closed?
    ensures Retreating(r, r.d.grant) && r.d.grant.Leases() <= OwnedLeases(r)
  {
    hide Grant.Leases, NoRepeats;
  }

  lemma RetreatByDispatcher(r: Row, s: Step, g: Grant)
    requires Retreating(r, g) && DispatchMoved(r, s).Some? && !(s.UndoSent? && !s.released)
    ensures Retreating(DispatchMoved(r, s).value, g)
  {
    GrantReleaseOrder(g);
    if s.UndoSent? && r.d.Undoing? {
      assert forall l :: l in r.d.rest[1..] ==> l in r.d.rest;
      assert r.orphans + {} == r.orphans;
    }
    hide ClaimNext, Grant.Leases;
  }

  lemma RetreatByHandler(r: Row, s: Step, g: Grant)
    requires Retreating(r, g) && HandlerMoved(r, s).Some?
    ensures Retreating(HandlerMoved(r, s).value, g)
  {
    hide ClaimNext, Grant.Leases;
  }

  lemma RetreatKeeps(r: Row, s: Step, g: Grant)
    requires Retreating(r, g) && Moved(r, s).Some? && !(s.UndoSent? && !s.released)
    ensures Retreating(Moved(r, s).value, g)
  {
    RetreatHasNoGuard(r, s, g);
    hide DispatchMoved, HandlerMoved, GuardMoved, Retreating;
    if ByDispatcher(s) {
      RetreatByDispatcher(r, s, g);
    } else {
      RetreatByHandler(r, s, g);
    }
  }

  lemma RetreatHasNoGuard(r: Row, s: Step, g: Grant)
    requires Retreating(r, g)
    ensures GuardMoved(r, s).None?
  {
  }

  /** Nothing of the grant is left once the dispatcher is idle again. */
  lemma RetreatEnds(r: Row, g: Grant)
    requires RowOk(r) && Retreating(r, g) && r.d.Idle?
    ensures OwnedLeases(r) !! g.Leases() && LedgerEntries(r) == {} && !HoldsSlot(r)
  {
    hide Grant.Leases, NoRepeats;
  }

  /** How many dispatcher steps that takes. */
  function RetreatLeft(d: Dispatch): nat
  {
    match d
    case Sending(_) => 6
    case Undoing(rest, _) => 2 + |rest|
    case Vacating => 1
    case _ => 0
  }

  lemma RetreatComesNearer(r: Row, g: Grant, s: Step)
    requires Retreating(r, g) && !r.d.Idle? && DispatchMoved(r, s).Some?
    ensures RetreatLeft(DispatchMoved(r, s).value.d) == RetreatLeft(r.d) - 1
  {
    hide ClaimNext, Grant.Leases;
  }

  function RetreatNext(r: Row): Step
  {
    if r.d.Undoing? then if r.d.rest == [] then UndoLedger else UndoSent(true) else if r.d.Vacating? then Vacate else Send
  }

  /** The dispatcher always has its next step, and each of its steps brings it nearer. */
  lemma RetreatGoesOn(r: Row, g: Grant)
    requires Retreating(r, g) && !r.d.Idle?
    ensures ByDispatcher(RetreatNext(r)) && DispatchMoved(r, RetreatNext(r)).Some?
    ensures forall s :: DispatchMoved(r, s).Some? ==> RetreatLeft(DispatchMoved(r, s).value.d) == RetreatLeft(r.d) - 1
  {
    assert DispatchMoved(r, RetreatNext(r)).Some?;
    hide DispatchMoved, Retreating, RetreatLeft;
    forall s | DispatchMoved(r, s).Some? ensures RetreatLeft(DispatchMoved(r, s).value.d) == RetreatLeft(r.d) - 1 {
      RetreatComesNearer(r, g, s);
    }
  }

  /** No release of this request's refused grant fails. */
  ghost predicate UndoneInFull(es: seq<Event>, id: RowId)
  {
    forall i :: 0 <= i < |es| && es[i].Act? && es[i].id == id && es[i].step.UndoSent? ==> es[i].step.released
  }

  lemma {:induction false} RetreatRun(w: World, es: seq<Event>, id: RowId, g: Grant)
    requires Inv(w) && Legal(w, es) && id in w.rows && Retreating(w.rows[id], g) && UndoneInFull(es, id)
    requires forall l :: l in g.Leases() ==> l in w.owner && w.owner[l] == id
    ensures
      var w' := Run(w, es);
      && Inv(w') && id in w'.rows && Retreating(w'.rows[id], g)
      && forall l :: l in g.Leases() ==> l in w'.owner && w'.owner[l] == id
    decreases |es|
  {
    hide Inv, Enabled, Next, Retreating, Grant.Leases;
    if es != [] {
      var e := es[0];
      InvStep(w, e);
      RowNext(w, e, id);
      OwnersStay(w, e);
      if e.Act? && e.id == id { RetreatKeeps(w.rows[id], e.step, g); }
      assert forall i :: 0 <= i < |es[1..]| ==> es[1..][i] == es[i + 1];
      RetreatRun(Next(w, e), es[1..], id, g);
    }
  }

  lemma OwnersStay(w: World, e: Event)
    requires Enabled(w, e)
    ensures forall l :: l in w.owner ==> l in Next(w, e).owner && Next(w, e).owner[l] == w.owner[l]
  {
    hide Moved, HasRoom, Stores, Deletes, LedgerAdds, LedgerDrops, SlotEffect, ActiveEffect, Counted;
  }

  /** In every interleaving: a grant whose receiver is gone has, once the dispatcher is idle with the request
      again and no release failed, no lease in the coordinator, no entry in the ledger and no slot in the
      counters. */
  lemma RefusedGrantIsUndone(es: seq<Event>, after: seq<Event>, id: RowId, g: Grant)
    requires Legal(START, es) && Legal(Run(START, es), after) && UndoneInFull(after, id)
    requires id in Run(START, es).rows && Run(START, es).rows[id].d == Sending(g) && Run(START, es).rows[id].channel.Closed?
    ensures
      var w := Run(Run(START, es), after);
      && id in w.rows && Retreating(w.rows[id], g)
      && var r := w.rows[id];
      r.d.Idle? ==>
        && g.Leases() !! w.stored && g.Leases() !! w.ledger
        && id !in TenantHolders(w.rows, r.who.tenant) && id !in ApplicationHolders(w.rows, r.who.application)
  {
    var w := Run(START, es);
    var w' := Run(w, after);
    AccountingIsExact(es);
    hide Inv, Legal, Run, Retreating, UndoneInFull, Grant.Leases, RowOk, OwnedLeases, LedgerEntries, HoldsSlot;
    RowOfInv(w, id);
    RefusedBegins(w.rows[id]);
    forall l | l in g.Leases() ensures l in w.owner && w.owner[l] == id { OwnerOf(w, id, l); }
    RetreatRun(w, after, id, g);
    if w'.rows[id].d.Idle? {
      RowOfInv(w', id);
      RetreatEnds(w'.rows[id], g);
      forall l | l in g.Leases() ensures l !in w'.stored && l !in w'.ledger { WhereIn(w', l); }
    }
  }
}
