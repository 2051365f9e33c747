/** All requests together: the shared concurrency counters, the coordinator's stored leases, the
    ledger and the count of active requests, over every interleaving of handlers, dispatcher and
    settlement tasks. */
module AdmissionRuns {
  import opened Sums
  import opened Concurrency
  import opened AdmissionRow
  import opened AdmissionSteps
  import opened Ownership

  type RowId = nat

  /** `owner` remembers for which request each lease was ever stored; `expired` are the leases that the
      coordinator removed because their time had come; `draining` refuses new requests, and a dispatcher that
      finds nothing pending then has `stopped`. */
  datatype World = World(rows: map<RowId, Row>, owner: map<LeaseId, RowId>, stored: set<LeaseId>, expired: set<LeaseId>,
                         ledger: set<LeaseId>, tenants: Counters, applications: Counters, active: int,
                         draining: bool, stopped: bool)

  const START := World(map[], map[], {}, {}, {}, map[], map[], 0, false, false)

  /** Limits and mode are those of the configuration that the step reads, which a reload may change. */
  datatype Event =
    | Arrive(id: RowId, who: Identity)
    | Act(id: RowId, step: Step, limits: Limits, shadow: bool)
    | LeaseExpires(lease: LeaseId)
    | Drain
    | Stop

  predicate Enabled(w: World, e: Event)
  {
    match e
    case Arrive(id, _) => id !in w.rows && !w.draining
    case LeaseExpires(l) => l in w.stored
    case Drain => !w.draining
    // the dispatcher looks at the top of its loop, when it has no request in hand
    case Stop => w.draining && !w.stopped && forall id :: id in w.rows ==> !w.rows[id].pending && w.rows[id].d.Idle?
    case Act(id, s, limits, shadow) =>
      && id in w.rows && Moved(w.rows[id], s).Some?
      && (s.Enter? || s.DispatchEnter? ==> HasRoom(w.tenants, w.applications, limits, w.rows[id].who))
      && (s.EnterRefused? || s.DispatchEnterRefused? ==> !HasRoom(w.tenants, w.applications, limits, w.rows[id].who))
      && (s.ForceEnter? ==> shadow) && (s.Reject? || s.Enqueue? ==> !shadow)
      && (s.Pop? ==> !w.stopped)
      && Stores(s) !! w.owner.Keys
  }

  function Counted(m: Counters, name: string, effect: int): Counters
  {
    if effect > 0 then Increment(m, name) else if effect < 0 then Decrement(m, name) else m
  }

  function Next(w: World, e: Event): World
    requires Enabled(w, e)
  {
    match e
    case Arrive(id, who) => w.(rows := w.rows[id := NewRow(who)])
    case LeaseExpires(l) => w.(stored := w.stored - {l}, expired := w.expired + {l})
    case Drain => w.(draining := true)
    case Stop => w.(stopped := true)
    case Act(id, s, _, _) =>
      var r := w.rows[id];
      World(w.rows[id := Moved(r, s).value],
            Named(w.owner, Stores(s), id),
            w.stored + Stores(s) - Deletes(r, s),
            w.expired,
            w.ledger + LedgerAdds(r, s) - LedgerDrops(r, s),
            Counted(w.tenants, r.who.tenant, SlotEffect(s)),
            Counted(w.applications, r.who.application, SlotEffect(s)),
            w.active + ActiveEffect(s),
            w.draining, w.stopped)
  }

  ghost predicate Legal(w: World, es: seq<Event>)
    decreases |es|
  {
    es != [] ==> Enabled(w, es[0]) && Legal(Next(w, es[0]), es[1..])
  }

  ghost function Run(w: World, es: seq<Event>): World
    requires Legal(w, es)
    decreases |es|
  {
    if es == [] then w else Run(Next(w, es[0]), es[1..])
  }

  // --------------------------------------------------------------------------------- the invariant

  /** The requests that hold a slot of the tenant: attempts under way, grants in a channel, live guards,
      and slots that nobody can give back any more. */
  ghost function TenantHolders(rows: map<RowId, Row>, tenant: string): set<RowId>
  {
    set id | id in rows && HoldsSlot(rows[id]) && rows[id].who.tenant == tenant
  }

  ghost function ApplicationHolders(rows: map<RowId, Row>, application: string): set<RowId>
  {
    set id | id in rows && HoldsSlot(rows[id]) && rows[id].who.application == application
  }

  ghost function Guards(rows: map<RowId, Row>): set<RowId> { set id | id in rows && LiveGuard(rows[id]) }

  ghost function LeasesOf(rows: map<RowId, Row>): map<RowId, set<LeaseId>> { map id | id in rows :: OwnedLeases(rows[id]) }

  ghost function Tracked(rows: map<RowId, Row>): map<RowId, set<LeaseId>> { map id | id in rows :: LedgerEntries(rows[id]) }

  ghost predicate SlotsCounted(w: World)
  {
    && NoZero(w.tenants) && NoZero(w.applications)
    && (forall t :: Count(w.tenants, t) == |TenantHolders(w.rows, t)|)
    && (forall a :: Count(w.applications, a) == |ApplicationHolders(w.rows, a)|)
    && w.active == |Guards(w.rows)|
  }

  /** What the coordinator stores is exactly what the requests own, less what has expired; the ledger is
      exactly what they track; and no two of them own or track the same. */
  ghost predicate LeasesCounted(w: World)
  {
    && (forall id :: id in w.rows ==> RowOk(w.rows[id]))
    && Owns(w.owner, LeasesOf(w.rows)) && Owns(w.owner, Tracked(w.rows))
    && w.stored == Union(w.owner, LeasesOf(w.rows)) - w.expired
    && w.ledger == Union(w.owner, Tracked(w.rows))
    && w.expired <= w.owner.Keys
  }

  /** A dispatcher that has stopped has no request in hand. */
  ghost predicate StoppedIdle(w: World) { w.stopped ==> w.draining && forall id :: id in w.rows ==> w.rows[id].d.Idle? }

  ghost predicate Inv(w: World) { SlotsCounted(w) && LeasesCounted(w) && StoppedIdle(w) }

  lemma InvParts(w: World)
    requires Inv(w)
    ensures LeasesCounted(w) && SlotsCounted(w) && StoppedIdle(w)
  {
  }

  // ----------------------------------------------------------------------------- counting over rows

  /** Changing one request changes a count of requests by what changed for that one. */
  lemma OneRowCounts(before: set<RowId>, after: set<RowId>, id: RowId)
    requires forall j :: j != id ==> (j in before <==> j in after)
    ensures |after| == |before| + One(id in after) - One(id in before)
  {
    var rest := before - {id};
    assert rest == after - {id};
    assert before == if id in before then rest + {id} else rest;
    assert after == if id in after then rest + {id} else rest;
  }

  lemma TenantStep(rows: map<RowId, Row>, id: RowId, r': Row, t: string)
    requires id in rows && r'.who == rows[id].who
    ensures |TenantHolders(rows[id := r'], t)| ==
            |TenantHolders(rows, t)| + if r'.who.tenant == t then One(HoldsSlot(r')) - One(HoldsSlot(rows[id])) else 0
  {
    hide HoldsSlot;
    OneRowCounts(TenantHolders(rows, t), TenantHolders(rows[id := r'], t), id);
  }

  lemma ApplicationStep(rows: map<RowId, Row>, id: RowId, r': Row, a: string)
    requires id in rows && r'.who == rows[id].who
    ensures |ApplicationHolders(rows[id := r'], a)| ==
            |ApplicationHolders(rows, a)| + if r'.who.application == a then One(HoldsSlot(r')) - One(HoldsSlot(rows[id])) else 0
  {
    hide HoldsSlot;
    OneRowCounts(ApplicationHolders(rows, a), ApplicationHolders(rows[id := r'], a), id);
  }

  lemma GuardStep(rows: map<RowId, Row>, id: RowId, r': Row)
    requires id in rows
    ensures |Guards(rows[id := r'])| == |Guards(rows)| + One(LiveGuard(r')) - One(LiveGuard(rows[id]))
  {
    hide LiveGuard;
    OneRowCounts(Guards(rows), Guards(rows[id := r']), id);
  }

  /** A request that holds a slot is counted, so giving it back never finds zero. */
  lemma HolderIsCounted(w: World, id: RowId)
    requires SlotsCounted(w) && id in w.rows && HoldsSlot(w.rows[id])
    ensures Count(w.tenants, w.rows[id].who.tenant) > 0 && Count(w.applications, w.rows[id].who.application) > 0
  {
    hide HoldsSlot;
    var r := w.rows[id];
    assert id in TenantHolders(w.rows, r.who.tenant) && id in ApplicationHolders(w.rows, r.who.application);
  }

  lemma CountedAs(m: Counters, name: string, effect: int)
    requires NoZero(m) && -1 <= effect <= 1 && (effect == -1 ==> Count(m, name) > 0)
    ensures NoZero(Counted(m, name, effect))
    ensures forall other :: Count(Counted(m, name, effect), other) == Count(m, other) + if other == name then effect else 0
  {
    IncrementCounts(m, name);
    DecrementCounts(m, name);
  }

  lemma ActSlots(w: World, e: Event)
    requires e.Act? && Enabled(w, e) && SlotsCounted(w)
    requires CountsKept(w.rows[e.id], e.step, Moved(w.rows[e.id], e.step).value)
    requires Moved(w.rows[e.id], e.step).value.who == w.rows[e.id].who
    ensures SlotsCounted(Next(w, e))
  {
    hide Moved, HoldsSlot, LiveGuard, Increment, Decrement, NoZero, HasRoom, Stores, Deletes, LedgerAdds, LedgerDrops;
    var id, s, r := e.id, e.step, w.rows[e.id];
    var r' := Moved(r, s).value;
    if SlotEffect(s) == -1 { HolderIsCounted(w, id); }
    var effect := SlotEffect(s);
    assert effect == One(HoldsSlot(r')) - One(HoldsSlot(r));
    hide SlotEffect, ActiveEffect, One;
    CountedAs(w.tenants, r.who.tenant, effect);
    CountedAs(w.applications, r.who.application, effect);
    forall t ensures Count(Next(w, e).tenants, t) == |TenantHolders(Next(w, e).rows, t)| { TenantStep(w.rows, id, r', t); }
    forall a ensures Count(Next(w, e).applications, a) == |ApplicationHolders(Next(w, e).rows, a)| { ApplicationStep(w.rows, id, r', a); }
    GuardStep(w.rows, id, r');
  }

  lemma ArriveSlots(w: World, e: Event)
    requires e.Arrive? && Enabled(w, e) && SlotsCounted(w)
    ensures SlotsCounted(Next(w, e))
  {
    var rows' := Next(w, e).rows;
    assert !HoldsSlot(NewRow(e.who)) && !LiveGuard(NewRow(e.who));
    hide HoldsSlot, LiveGuard, NewRow;
    forall t ensures TenantHolders(rows', t) == TenantHolders(w.rows, t) {}
    forall a ensures ApplicationHolders(rows', a) == ApplicationHolders(w.rows, a) {}
    assert Guards(rows') == Guards(w.rows);
  }

  // ----------------------------------------------------------------------------- leases over rows

  /** What a request owns changes by exactly what the coordinator stores and deletes for it. */
  lemma OwnedStep(r: Row, s: Step, r': Row)
    requires LeasesKept(r, s, r') && Attended(r) !! r.orphans && Stores(s) !! OwnedLeases(r)
    ensures OwnedLeases(r') == OwnedLeases(r) + Stores(s) - Deletes(r, s)
  {
    hide Attended, Stores, Deletes, Abandoned;
    assert forall l :: l in Deletes(r, s) ==> l !in Stores(s);
  }

  lemma ActIsFresh(w: World, e: Event)
    requires e.Act? && Enabled(w, e) && LeasesCounted(w)
    ensures RowOk(w.rows[e.id]) && Fresh(w.rows[e.id], e.step)
  {
    hide RowOk, OwnedLeases, Stores, Moved, HasRoom, Tracked, Union;
    assert LeasesOf(w.rows)[e.id] == OwnedLeases(w.rows[e.id]);
  }

  lemma ActKeepsRow(w: World, e: Event)
    requires e.Act? && Enabled(w, e) && LeasesCounted(w)
    ensures
      var r, s, r' := w.rows[e.id], e.step, Moved(w.rows[e.id], e.step).value;
      && RowOk(r') && r'.who == r.who && CountsKept(r, s, r') && LeasesKept(r, s, r') && LedgerKept(r, s, r')
      && OwnedLeases(r') == OwnedLeases(r) + Stores(s) - Deletes(r, s)
      && Deletes(r, s) + Abandoned(r, s) + LedgerAdds(r, s) <= Attended(r) <= OwnedLeases(r) && Attended(r) !! r.orphans
  {
    hide RowOk, Attended, Stores, Deletes, Abandoned, Moved, HasRoom, CountsKept, LedgerAdds, LedgerDrops, LedgerEntries, LedgerApart,
         LosesSlot, LosesGrant;
    ActIsFresh(w, e);
    StepKeeps(w.rows[e.id], e.step);
    ApartKept(w.rows[e.id], e.step);
    OwnedStep(w.rows[e.id], e.step, Moved(w.rows[e.id], e.step).value);
  }

  lemma OneRowChanges(rows: map<RowId, Row>, id: RowId, r': Row)
    ensures LeasesOf(rows[id := r']) == LeasesOf(rows)[id := OwnedLeases(r')]
    ensures Tracked(rows[id := r']) == Tracked(rows)[id := LedgerEntries(r')]
    ensures id in rows <==> id in LeasesOf(rows)
    ensures id in rows ==> id in LeasesOf(rows) && LeasesOf(rows)[id] == OwnedLeases(rows[id])
    ensures id in rows ==> id in Tracked(rows) && Tracked(rows)[id] == LedgerEntries(rows[id])
  {
    hide OwnedLeases, LedgerEntries;
  }

  lemma ActLeases(w: World, e: Event)
    requires e.Act? && Enabled(w, e) && LeasesCounted(w)
    ensures LeasesCounted(Next(w, e))
  {
    hide RowOk, Attended, OwnedLeases, LedgerEntries, Stores, Deletes, Abandoned, Moved, HasRoom, CountsKept, LeasesKept, LedgerApart,
         SlotEffect, ActiveEffect, Counted, LedgerAdds, LedgerDrops, LosesSlot, LosesGrant, Named, Union, Owns, LeasesOf, Tracked;
    ActKeepsRow(w, e);
    var id, s, r := e.id, e.step, w.rows[e.id];
    var r' := Moved(r, s).value;
    OneRowChanges(w.rows, id, r');
    UnionStep(w.owner, Stores(s), LeasesOf(w.rows), id, Stores(s), Deletes(r, s));
    TrackedIsNamed(w, e);
    UnionStep(w.owner, Stores(s), Tracked(w.rows), id, LedgerAdds(r, s), LedgerDrops(r, s));
    NamedKeeps(w.owner, Stores(s), id);
    StoredNotExpired(w, e);
  }

  lemma TrackedIsNamed(w: World, e: Event)
    requires e.Act? && Enabled(w, e) && LeasesCounted(w)
    ensures forall l :: l in LedgerAdds(w.rows[e.id], e.step) ==> l in w.owner && w.owner[l] == e.id
  {
    hide RowOk, Attended, OwnedLeases, LedgerAdds, Deletes, Abandoned, Moved, HasRoom, Union, LeasesOf, Tracked, CountsKept, LeasesKept, LedgerKept;
    ActKeepsRow(w, e);
    OneRowChanges(w.rows, e.id, w.rows[e.id]);
    forall l | l in LedgerAdds(w.rows[e.id], e.step) ensures l in w.owner && w.owner[l] == e.id {
      assert l in LeasesOf(w.rows)[e.id];
    }
  }

  lemma StoredNotExpired(w: World, e: Event)
    requires e.Act? && Enabled(w, e) && LeasesCounted(w)
    ensures
      var r, s := w.rows[e.id], e.step;
      w.stored + Stores(s) - Deletes(r, s) == (Union(w.owner, LeasesOf(w.rows)) + Stores(s) - Deletes(r, s)) - w.expired
  {
    hide RowOk, LeasesOf, Tracked, Union, Owns, Stores, Deletes, Moved, HasRoom;
  }

  lemma NewRowOwnsNothing(who: Identity)
    ensures RowOk(NewRow(who)) && OwnedLeases(NewRow(who)) == {} == LedgerEntries(NewRow(who))
  {
  }

  lemma ArriveLeases(w: World, e: Event)
    requires e.Arrive? && Enabled(w, e) && LeasesCounted(w)
    ensures LeasesCounted(Next(w, e))
  {
    hide RowOk, OwnedLeases, LedgerEntries, NewRow, Union, Owns, Moved, HasRoom;
    NewRowOwnsNothing(e.who);
    OneRowChanges(w.rows, e.id, NewRow(e.who));
    UnionArrives(w.owner, LeasesOf(w.rows), e.id);
    UnionArrives(w.owner, Tracked(w.rows), e.id);
  }

  lemma ExpiryLeases(w: World, e: Event)
    requires e.LeaseExpires? && Enabled(w, e) && LeasesCounted(w)
    ensures LeasesCounted(Next(w, e))
  {
    hide RowOk, LeasesOf, Tracked, Owns;
  }

  // ---------------------------------------------------------------------------------- every run

  lemma InvStep(w: World, e: Event)
    requires Inv(w) && Enabled(w, e)
    ensures Inv(Next(w, e))
  {
    hide SlotsCounted, LeasesCounted, StoppedIdle, Enabled, Moved, CountsKept, LeasesKept, LedgerKept, RowOk, OwnedLeases, Attended;
    IdleStep(w, e);
    match e
    case Arrive(_, _) =>
      ArriveSlots(w, e);
      ArriveLeases(w, e);
    case LeaseExpires(_) =>
      ExpirySlots(w, e);
      ExpiryLeases(w, e);
    case Drain =>
      FlagSlots(w, e);
      FlagLeases(w, e);
    case Stop =>
      FlagSlots(w, e);
      FlagLeases(w, e);
    case Act(_, _, _, _) =>
      ActKeepsRow(w, e);
      ActSlots(w, e);
      ActLeases(w, e);
  }

  lemma ExpirySlots(w: World, e: Event)
    requires e.LeaseExpires? && Enabled(w, e) && SlotsCounted(w)
    ensures SlotsCounted(Next(w, e))
  {
    hide TenantHolders, ApplicationHolders, Guards;
  }

  lemma FlagSlots(w: World, e: Event)
    requires (e.Drain? || e.Stop?) && Enabled(w, e) && SlotsCounted(w)
    ensures SlotsCounted(Next(w, e))
  {
    hide TenantHolders, ApplicationHolders, Guards;
  }

  lemma FlagLeases(w: World, e: Event)
    requires (e.Drain? || e.Stop?) && Enabled(w, e) && LeasesCounted(w)
    ensures LeasesCounted(Next(w, e))
  {
    hide RowOk, LeasesOf, Tracked, Owns, Union;
  }

  lemma HandlerKeepsDispatch(r: Row, s: Step)
    requires HandlerMoved(r, s).Some?
    ensures HandlerMoved(r, s).value.d == r.d
  {
    hide ClaimNext;
  }

  lemma GuardKeepsDispatch(r: Row, s: Step)
    requires GuardMoved(r, s).Some?
    ensures GuardMoved(r, s).value.d == r.d
  {
  }

  lemma IdleOnlyPops(r: Row, s: Step)
    requires r.d.Idle? && !s.Pop?
    ensures DispatchMoved(r, s).None?
  {
  }

  /** Only a pop makes an idle dispatcher busy. */
  lemma IdleUnlessPopped(r: Row, s: Step)
    requires r.d.Idle? && !s.Pop? && Moved(r, s).Some?
    ensures Moved(r, s).value.d.Idle? && !ByDispatcher(s)
  {
    hide HandlerMoved, GuardMoved, DispatchMoved;
    IdleOnlyPops(r, s);
    if ByGuard(s) {
      GuardKeepsDispatch(r, s);
    } else {
      HandlerKeepsDispatch(r, s);
    }
  }

  lemma IdleStep(w: World, e: Event)
    requires Enabled(w, e) && StoppedIdle(w)
    ensures StoppedIdle(Next(w, e))
  {
    hide Moved, HasRoom, Stores, Deletes, LedgerAdds, LedgerDrops, SlotEffect, ActiveEffect, Counted;
    if e.Act? && w.stopped { IdleUnlessPopped(w.rows[e.id], e.step); }
  }

  lemma {:induction false} RunKeepsInv(w: World, es: seq<Event>)
    requires Inv(w) && Legal(w, es)
    ensures Inv(Run(w, es))
    decreases |es|
  {
    hide Inv, Enabled, Next;
    if es != [] {
      InvStep(w, es[0]);
      RunKeepsInv(Next(w, es[0]), es[1..]);
    }
  }

  lemma StartInv()
    ensures Inv(START)
  {
    assert forall t :: TenantHolders(map[], t) == {};
    assert forall a :: ApplicationHolders(map[], a) == {};
    assert Guards(map[]) == {};
  }

  /** Every interleaving from the start: each counter is exactly the number of requests that hold a slot
      under its name, no zero is kept, `active` is the number of live guards, and the coordinator and the
      ledger hold exactly what the requests own. */
  lemma AccountingIsExact(es: seq<Event>)
    requires Legal(START, es)
    ensures Inv(Run(START, es))
  {
    hide Inv;
    StartInv();
    RunKeepsInv(START, es);
  }
}
