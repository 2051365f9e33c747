/** The three leases behind one admission (a tenant slot, an application slot and the capacity itself),
    acquired and released against a coordinator. */
module Distributed {
  import opened Sums
  import opened Concurrency
  import opened CoordinatorRuns
  import C = Coordinator

  /** One attempt: whom it is for, what it asks, and the identifiers and clock readings of its calls. */
  datatype Attempt = Attempt(pool: string, who: Identity, poolLimit: real, tenantLimit: real, charged: real, ttl: nat,
                             tenantId: C.LeaseId, applicationId: C.LeaseId, capacityId: C.LeaseId,
                             tenantAt: nat, applicationAt: nat, capacityAt: nat)
  {
    function TenantKey(): string { "__concurrency__:" + pool + ":tenant:" + who.tenant }
    function ApplicationKey(): string { "__concurrency__:" + pool + ":application:" + who.application }

    function TenantCall(limits: Limits): C.Event
    {
      C.Event(C.Reserve(TenantKey(), LimitFor(limits.tenants, who.tenant) as real, 1.0, ttl, tenantId), tenantAt)
    }

    function ApplicationCall(limits: Limits): C.Event
    {
      C.Event(C.Reserve(ApplicationKey(), LimitFor(limits.applications, who.application) as real, 1.0, ttl, applicationId), applicationAt)
    }

    function CapacityCall(): C.Event
    {
      C.Event(C.ReserveScoped(pool, who.tenant, poolLimit, tenantLimit, charged, ttl, capacityId), capacityAt)
    }

    function ReleaseTenant(): C.Event { C.Event(C.Release(TenantKey(), tenantId), capacityAt) }
    function ReleaseApplication(): C.Event { C.Event(C.Release(ApplicationKey(), applicationId), capacityAt) }
  }

  datatype Outcome = CoordinatorError | NotGranted | Leased

  /** What other requests do between the calls of an attempt. */
  datatype Gaps = Gaps(afterTenant: seq<C.Event>, afterApplication: seq<C.Event>, afterCapacity: seq<C.Event>, betweenReleases: seq<C.Event>)

  const NO_GAPS := Gaps([], [], [], [])

  /** The store that an attempt leaves, call by call with others in between, and what it reports. */
  ghost function Attempted(store: C.Store, a: Attempt, limits: Limits, gaps: Gaps): (C.Store, Outcome)
  {
    var s1 := C.Next(store, a.TenantCall(limits));
    if C.AnswerTo(store, a.TenantCall(limits)) != C.Granted then (s1, NotGranted)
    else
      var s1' := C.Run(s1, gaps.afterTenant);
      var s2 := C.Next(s1', a.ApplicationCall(limits));
      var s2' := C.Run(s2, gaps.afterApplication);
      if C.AnswerTo(s1', a.ApplicationCall(limits)) != C.Granted then (C.Next(s2', a.ReleaseTenant()), NotGranted)
      else
        var s3 := C.Next(s2', a.CapacityCall());
        match C.AnswerTo(s2', a.CapacityCall())
        case Granted => (s3, Leased)
        case Refused =>
          var s4 := C.Next(C.Run(s3, gaps.afterCapacity), a.ReleaseApplication());
          (C.Next(C.Run(s4, gaps.betweenReleases), a.ReleaseTenant()), NotGranted)
        case _ => (s3, CoordinatorError)
  }

  method ReserveDistributed(coordinator: C.InMemoryCoordinator, a: Attempt, limits: Limits) returns (outcome: Outcome)
    modifies coordinator
    ensures (coordinator.state, outcome) == Attempted(old(coordinator.state), a, limits, NO_GAPS)
  {
    hide C.AnswerTo, C.Next;
    AnswersToSlots(coordinator.state, a.TenantCall(limits));
    var answer := coordinator.Reserve(a.TenantKey(), LimitFor(limits.tenants, a.who.tenant) as real, 1.0, a.ttl, a.tenantAt, a.tenantId);
    if answer != C.Granted { return NotGranted; }
    AnswersToSlots(coordinator.state, a.ApplicationCall(limits));
    answer := coordinator.Reserve(a.ApplicationKey(), LimitFor(limits.applications, a.who.application) as real, 1.0, a.ttl, a.applicationAt, a.applicationId);
    if answer != C.Granted {
      coordinator.Release(a.TenantKey(), a.tenantId, a.capacityAt);
      return NotGranted;
    }
    answer := coordinator.ReserveScoped(a.pool, a.who.tenant, a.poolLimit, a.tenantLimit, a.charged, a.ttl, a.capacityAt, a.capacityId);
    match answer
    case Granted => return Leased;
    case Refused =>
      coordinator.Release(a.ApplicationKey(), a.applicationId, a.capacityAt);
      coordinator.Release(a.TenantKey(), a.tenantId, a.capacityAt);
      return NotGranted;
    case _ => return CoordinatorError;
  }

  /** A slot of one unit is never an invalid request. */
  lemma AnswersToSlots(store: C.Store, e: C.Event)
    requires e.op.Reserve? && e.op.units == 1.0
    ensures C.AnswerTo(store, e) == C.Granted || C.AnswerTo(store, e) == C.Refused
  {
  }

  // ----------------------------------------------------------------------------- following one lease

  ghost predicate NewIds(store: C.Store, a: Attempt)
  {
    && a.tenantId != a.applicationId && a.tenantId != a.capacityId && a.applicationId != a.capacityId
    && forall pool :: a.tenantId !in C.Pool(store, pool) && a.applicationId !in C.Pool(store, pool) && a.capacityId !in C.Pool(store, pool)
  }

  ghost predicate Mine(a: Attempt, id: C.LeaseId) { id == a.tenantId || id == a.applicationId || id == a.capacityId }

  /** Others use other identifiers. */
  ghost predicate Foreign(a: Attempt, es: seq<C.Event>) { forall i :: 0 <= i < |es| ==> !Mine(a, es[i].op.id) }

  ghost predicate ForeignGaps(a: Attempt, gaps: Gaps)
  {
    Foreign(a, gaps.afterTenant) && Foreign(a, gaps.afterApplication) && Foreign(a, gaps.afterCapacity) && Foreign(a, gaps.betweenReleases)
  }

  /** The clock does not run past the given reading during an attempt. */
  ghost predicate InTime(a: Attempt, gaps: Gaps, now: nat)
  {
    && a.tenantAt <= now && a.applicationAt <= now && a.capacityAt <= now
    && NoLaterThan(gaps.afterTenant, now) && NoLaterThan(gaps.afterApplication, now)
    && NoLaterThan(gaps.afterCapacity, now) && NoLaterThan(gaps.betweenReleases, now)
  }

  /** Nobody else calls for this lease between the calls of an attempt. */
  ghost predicate LeftAlone(gaps: Gaps, pool: string, id: C.LeaseId)
  {
    && Untouched(gaps.afterTenant, pool, id) && Untouched(gaps.afterApplication, pool, id)
    && Untouched(gaps.afterCapacity, pool, id) && Untouched(gaps.betweenReleases, pool, id)
  }

  ghost predicate Live(store: C.Store, pool: string, id: C.LeaseId, now: nat) { id in C.Purge(C.Pool(store, pool), now) }

  /** A lease is live in both stores with the same entry, or in neither. */
  ghost predicate SameLive(store: C.Store, store': C.Store, pool: string, id: C.LeaseId, now: nat)
  {
    && (Live(store', pool, id, now) <==> Live(store, pool, id, now))
    && (Live(store, pool, id, now) ==> C.Pool(store', pool)[id] == C.Pool(store, pool)[id])
  }

  lemma RunKeepsLive(store: C.Store, es: seq<C.Event>, pool: string, id: C.LeaseId, now: nat)
    requires Untouched(es, pool, id) && NoLaterThan(es, now)
    ensures SameLive(store, C.Run(store, es), pool, id, now)
  {
    hide C.Run;
    if id in C.Pool(store, pool) {
      LeaseLifetime(store, es, pool, id, now);
    } else {
      EntryKeptOrGone(store, es, pool, id);
    }
  }

  lemma CallKeepsLive(store: C.Store, e: C.Event, pool: string, id: C.LeaseId, now: nat)
    requires (e.op.pool != pool || e.op.id != id) && e.now <= now
    ensures SameLive(store, C.Next(store, e), pool, id, now)
  {
    hide C.Next, SameLive;
    RunKeepsLive(store, [e], pool, id, now);
    assert [e][1..] == [];
    assert C.Run(C.Next(store, e), []) == C.Next(store, e);
  }

  /** Foreign events neither bring an id of the attempt nor, in its lifetime, take one away. */
  lemma ForeignRun(store: C.Store, es: seq<C.Event>, a: Attempt, pool: string, id: C.LeaseId)
    requires Foreign(a, es) && Mine(a, id)
    ensures id in C.Pool(C.Run(store, es), pool) ==> id in C.Pool(store, pool)
  {
    hide C.Run;
    assert forall i :: 0 <= i < |es| ==> es[i].op.id != id;
    EntryKeptOrGone(store, es, pool, id);
  }

  /** Where an id can come from and how it goes. */
  lemma TrackId(store: C.Store, e: C.Event, pool: string, id: C.LeaseId)
    requires e.op.Reserve? || e.op.ReserveScoped? || e.op.Release?
    ensures id in C.Pool(C.Next(store, e), pool) ==>
              id in C.Pool(store, pool) || (id == e.op.id && pool == e.op.pool && !e.op.Release? && C.AnswerTo(store, e) == C.Granted)
    ensures id in C.Pool(C.Next(store, e), pool) && e.op.Release? && e.op.id == id ==> pool != e.op.pool
  {
  }

  lemma GrantedIsLive(store: C.Store, e: C.Event, now: nat)
    requires (e.op.Reserve? || e.op.ReserveScoped?) && C.AnswerTo(store, e) == C.Granted && now < e.now + e.op.ttl
    ensures Live(C.Next(store, e), e.op.pool, e.op.id, now)
  {
    hide C.AnswerTo, C.Next;
    GrantStores(store, e);
  }

  // -------------------------------------------------------------------------------- all or nothing

  /** Whatever the outcome, an attempt changes no unexpired lease of anyone else: one that the others leave
      alone meanwhile is as before. */
  lemma OthersUntouched(store: C.Store, a: Attempt, limits: Limits, gaps: Gaps, pool: string, id: C.LeaseId, now: nat)
    requires InTime(a, gaps, now) && !Mine(a, id) && LeftAlone(gaps, pool, id)
    ensures SameLive(store, Attempted(store, a, limits, gaps).0, pool, id, now)
  {
    hide C.Run, C.Next, C.AnswerTo, Live, Untouched, NoLaterThan, C.Pool, Attempt.TenantKey, Attempt.ApplicationKey;
    var s1 := C.Next(store, a.TenantCall(limits));
    var s1' := C.Run(s1, gaps.afterTenant);
    var s2 := C.Next(s1', a.ApplicationCall(limits));
    var s2' := C.Run(s2, gaps.afterApplication);
    var s3 := C.Next(s2', a.CapacityCall());
    var s3' := C.Run(s3, gaps.afterCapacity);
    var s4 := C.Next(s3', a.ReleaseApplication());
    var s4' := C.Run(s4, gaps.betweenReleases);
    CallKeepsLive(store, a.TenantCall(limits), pool, id, now);
    RunKeepsLive(s1, gaps.afterTenant, pool, id, now);
    CallKeepsLive(s1', a.ApplicationCall(limits), pool, id, now);
    RunKeepsLive(s2, gaps.afterApplication, pool, id, now);
    CallKeepsLive(s2', a.ReleaseTenant(), pool, id, now);
    CallKeepsLive(s2', a.CapacityCall(), pool, id, now);
    RunKeepsLive(s3, gaps.afterCapacity, pool, id, now);
    CallKeepsLive(s3', a.ReleaseApplication(), pool, id, now);
    RunKeepsLive(s4, gaps.betweenReleases, pool, id, now);
    CallKeepsLive(s4', a.ReleaseTenant(), pool, id, now);
  }

  /** Where the identifiers of an attempt can be after its first two calls and what came between. */
  lemma SlotsWhere(store: C.Store, a: Attempt, limits: Limits, gaps: Gaps, pool: string, id: C.LeaseId)
    requires NewIds(store, a) && ForeignGaps(a, gaps) && Mine(a, id)
    ensures
      var s1' := C.Run(C.Next(store, a.TenantCall(limits)), gaps.afterTenant);
      var s2' := C.Run(C.Next(s1', a.ApplicationCall(limits)), gaps.afterApplication);
      && (id in C.Pool(C.Next(store, a.TenantCall(limits)), pool) ==>
            id == a.tenantId && pool == a.TenantKey() && C.AnswerTo(store, a.TenantCall(limits)) == C.Granted)
      && (id in C.Pool(s2', pool) ==>
            || (id == a.tenantId && pool == a.TenantKey())
            || (id == a.applicationId && pool == a.ApplicationKey() && C.AnswerTo(s1', a.ApplicationCall(limits)) == C.Granted))
  {
    hide C.Run, C.Next, C.AnswerTo, C.Pool, Foreign, Attempt.TenantKey, Attempt.ApplicationKey;
    var s1 := C.Next(store, a.TenantCall(limits));
    var s1' := C.Run(s1, gaps.afterTenant);
    var s2 := C.Next(s1', a.ApplicationCall(limits));
    TrackId(store, a.TenantCall(limits), pool, id);
    ForeignRun(s1, gaps.afterTenant, a, pool, id);
    TrackId(s1', a.ApplicationCall(limits), pool, id);
    ForeignRun(s2, gaps.afterApplication, a, pool, id);
  }

  /** Interleaved with any calls of others, an attempt that is not granted leaves none of its leases stored
      anywhere. */
  lemma NothingLeftBehind(store: C.Store, a: Attempt, limits: Limits, gaps: Gaps, pool: string, id: C.LeaseId)
    requires NewIds(store, a) && ForeignGaps(a, gaps) && Mine(a, id) && Attempted(store, a, limits, gaps).1 == NotGranted
    ensures id !in C.Pool(Attempted(store, a, limits, gaps).0, pool)
  {
    hide C.Run, C.Next, C.AnswerTo, C.Pool, Foreign, Attempt.TenantKey, Attempt.ApplicationKey;
    SlotsWhere(store, a, limits, gaps, pool, id);
    var s1' := C.Run(C.Next(store, a.TenantCall(limits)), gaps.afterTenant);
    var s2' := C.Run(C.Next(s1', a.ApplicationCall(limits)), gaps.afterApplication);
    var s3 := C.Next(s2', a.CapacityCall());
    var s3' := C.Run(s3, gaps.afterCapacity);
    var s4 := C.Next(s3', a.ReleaseApplication());
    var s4' := C.Run(s4, gaps.betweenReleases);
    TrackId(s2', a.ReleaseTenant(), pool, id);
    TrackId(s2', a.CapacityCall(), pool, id);
    ForeignRun(s3, gaps.afterCapacity, a, pool, id);
    TrackId(s3', a.ReleaseApplication(), pool, id);
    ForeignRun(s4, gaps.betweenReleases, a, pool, id);
    TrackId(s4', a.ReleaseTenant(), pool, id);
  }

  /** Once granted, both slots are still live when the capacity call has been answered. */
  lemma SlotsStayLive(store: C.Store, a: Attempt, limits: Limits, gaps: Gaps, now: nat)
    requires NewIds(store, a) && ForeignGaps(a, gaps) && InTime(a, gaps, now) && now < a.tenantAt + a.ttl && now < a.applicationAt + a.ttl
    requires Attempted(store, a, limits, gaps).1 != NotGranted
    ensures
      var after := Attempted(store, a, limits, gaps).0;
      Live(after, a.TenantKey(), a.tenantId, now) && Live(after, a.ApplicationKey(), a.applicationId, now)
  {
    hide C.Run, C.Next, C.AnswerTo, C.Pool, Live, NoLaterThan, Attempt.TenantKey, Attempt.ApplicationKey;
    var s1 := C.Next(store, a.TenantCall(limits));
    var s1' := C.Run(s1, gaps.afterTenant);
    var s2 := C.Next(s1', a.ApplicationCall(limits));
    var s2' := C.Run(s2, gaps.afterApplication);
    var tk, ak := a.TenantKey(), a.ApplicationKey();
    GrantedIsLive(store, a.TenantCall(limits), now);
    GrantedIsLive(s1', a.ApplicationCall(limits), now);
    RunKeepsLive(s1, gaps.afterTenant, tk, a.tenantId, now);
    CallKeepsLive(s1', a.ApplicationCall(limits), tk, a.tenantId, now);
    RunKeepsLive(s2, gaps.afterApplication, tk, a.tenantId, now);
    RunKeepsLive(s2, gaps.afterApplication, ak, a.applicationId, now);
    CallKeepsLive(s2', a.CapacityCall(), tk, a.tenantId, now);
    CallKeepsLive(s2', a.CapacityCall(), ak, a.applicationId, now);
  }

  /** Interleaved with any calls of others, a granted attempt that takes less than one time-to-live leaves
      exactly its three leases stored. */
  lemma ThreeLeasesStored(store: C.Store, a: Attempt, limits: Limits, gaps: Gaps, now: nat)
    requires NewIds(store, a) && ForeignGaps(a, gaps) && InTime(a, gaps, now) && Attempted(store, a, limits, gaps).1 == Leased
    requires now < a.tenantAt + a.ttl && now < a.applicationAt + a.ttl && now < a.capacityAt + a.ttl
    ensures
      var after := Attempted(store, a, limits, gaps).0;
      && Live(after, a.TenantKey(), a.tenantId, now) && Live(after, a.ApplicationKey(), a.applicationId, now) && Live(after, a.pool, a.capacityId, now)
      && forall pool, id :: Mine(a, id) && id in C.Pool(after, pool) ==>
           (id, pool) in {(a.tenantId, a.TenantKey()), (a.applicationId, a.ApplicationKey()), (a.capacityId, a.pool)}
  {
    SlotsStayLive(store, a, limits, gaps, now);
    hide C.Run, C.Next, C.AnswerTo, C.Pool, Live, Foreign, NoLaterThan, Attempt.TenantKey, Attempt.ApplicationKey;
    var s2' := C.Run(C.Next(C.Run(C.Next(store, a.TenantCall(limits)), gaps.afterTenant), a.ApplicationCall(limits)), gaps.afterApplication);
    GrantedIsLive(s2', a.CapacityCall(), now);
    forall pool, id | Mine(a, id) && id in C.Pool(C.Next(s2', a.CapacityCall()), pool)
      ensures (id, pool) in {(a.tenantId, a.TenantKey()), (a.applicationId, a.ApplicationKey()), (a.capacityId, a.pool)}
    {
      SlotsWhere(store, a, limits, gaps, pool, id);
      TrackId(s2', a.CapacityCall(), pool, id);
    }
  }

  /** An attempt that ends in an error leaves both slots stored, to expire, and no capacity lease. */
  lemma ErrorLeavesSlots(store: C.Store, a: Attempt, limits: Limits, gaps: Gaps, now: nat)
    requires NewIds(store, a) && ForeignGaps(a, gaps) && InTime(a, gaps, now) && now < a.tenantAt + a.ttl && now < a.applicationAt + a.ttl
    requires Attempted(store, a, limits, gaps).1 == CoordinatorError
    ensures
      var after := Attempted(store, a, limits, gaps).0;
      && Live(after, a.TenantKey(), a.tenantId, now) && Live(after, a.ApplicationKey(), a.applicationId, now)
      && forall pool :: a.capacityId !in C.Pool(after, pool)
  {
    SlotsStayLive(store, a, limits, gaps, now);
    hide C.Run, C.Next, C.AnswerTo, C.Pool, Live, Foreign, NoLaterThan, Attempt.TenantKey, Attempt.ApplicationKey;
    var s2' := C.Run(C.Next(C.Run(C.Next(store, a.TenantCall(limits)), gaps.afterTenant), a.ApplicationCall(limits)), gaps.afterApplication);
    forall pool ensures a.capacityId !in C.Pool(C.Next(s2', a.CapacityCall()), pool) {
      SlotsWhere(store, a, limits, gaps, pool, a.capacityId);
      TrackId(s2', a.CapacityCall(), pool, a.capacityId);
    }
  }

  /** An attempt ends in an error exactly when both slots were granted and an amount is negative. */
  lemma ErrorIffNegativeAmount(store: C.Store, a: Attempt, limits: Limits, gaps: Gaps)
    ensures
      var s1' := C.Run(C.Next(store, a.TenantCall(limits)), gaps.afterTenant);
      var slots := C.AnswerTo(store, a.TenantCall(limits)) == C.Granted && C.AnswerTo(s1', a.ApplicationCall(limits)) == C.Granted;
      Attempted(store, a, limits, gaps).1 == CoordinatorError <==> slots && (a.charged < 0.0 || a.poolLimit < 0.0 || a.tenantLimit < 0.0)
  {
    hide C.Next, C.Fits, C.Run, Attempt.TenantKey, Attempt.ApplicationKey;
  }

  // ------------------------------------------------------------------------------------- release

  /** The pool and id of each lease of a grant. */
  datatype AdmissionLeases = AdmissionLeases(capacity: (string, C.LeaseId), tenantSlot: (string, C.LeaseId), applicationSlot: (string, C.LeaseId))

  function LeasesOf(a: Attempt): AdmissionLeases
  {
    AdmissionLeases((a.pool, a.capacityId), (a.TenantKey(), a.tenantId), (a.ApplicationKey(), a.applicationId))
  }

  function ReleaseOf(lease: (string, C.LeaseId)): C.Event { C.Event(C.Release(lease.0, lease.1), 0) }

  /** The store after the three releases of a grant, with what others do after the first and the second. */
  ghost function Released(store: C.Store, leases: AdmissionLeases, afterFirst: seq<C.Event>, afterSecond: seq<C.Event>): C.Store
  {
    var s1 := C.Run(C.Next(store, ReleaseOf(leases.capacity)), afterFirst);
    var s2 := C.Run(C.Next(s1, ReleaseOf(leases.applicationSlot)), afterSecond);
    C.Next(s2, ReleaseOf(leases.tenantSlot))
  }

  method ReleaseDistributed(coordinator: C.InMemoryCoordinator, leases: AdmissionLeases)
    modifies coordinator
    ensures coordinator.state == Released(old(coordinator.state), leases, [], [])
  {
    hide C.Next;
    coordinator.Release(leases.capacity.0, leases.capacity.1, 0);
    coordinator.Release(leases.applicationSlot.0, leases.applicationSlot.1, 0);
    coordinator.Release(leases.tenantSlot.0, leases.tenantSlot.1, 0);
  }

  ghost predicate Among(leases: AdmissionLeases, pool: string, id: C.LeaseId)
  {
    (pool, id) == leases.capacity || (pool, id) == leases.applicationSlot || (pool, id) == leases.tenantSlot
  }

  lemma ReleaseTakesOutOne(store: C.Store, lease: (string, C.LeaseId), pool: string, id: C.LeaseId)
    ensures
      var after := C.Next(store, ReleaseOf(lease));
      && (id in C.Pool(after, pool) <==> id in C.Pool(store, pool) && (pool, id) != lease)
      && (id in C.Pool(after, pool) ==> C.Pool(after, pool)[id] == C.Pool(store, pool)[id])
  {
  }

  /** Interleaved with any calls of others, reserving and later releasing leaves no lease of the attempt, and
      every lease that the others leave alone is live as before. */
  lemma ReleaseUndoesReserve(store: C.Store, a: Attempt, limits: Limits, gaps: Gaps, held: seq<C.Event>, afterFirst: seq<C.Event>,
                             afterSecond: seq<C.Event>, pool: string, id: C.LeaseId, now: nat)
    requires NewIds(store, a) && ForeignGaps(a, gaps) && InTime(a, gaps, now) && Attempted(store, a, limits, gaps).1 == Leased
    requires Foreign(a, held) && Foreign(a, afterFirst) && Foreign(a, afterSecond)
    requires NoLaterThan(held, now) && NoLaterThan(afterFirst, now) && NoLaterThan(afterSecond, now)
    ensures
      var granted := C.Run(Attempted(store, a, limits, gaps).0, held);
      var after := Released(granted, LeasesOf(a), afterFirst, afterSecond);
      && (Mine(a, id) ==> id !in C.Pool(after, pool))
      && (!Mine(a, id) && LeftAlone(gaps, pool, id) && Untouched(held + afterFirst + afterSecond, pool, id) ==>
            SameLive(store, after, pool, id, now))
  {
    var admitted := Attempted(store, a, limits, gaps).0;
    var granted := C.Run(admitted, held);
    if Mine(a, id) {
      MineIsWhere(store, a, limits, gaps, pool, id);
      ForeignRun(admitted, held, a, pool, id);
      ReleasedMine(granted, a, afterFirst, afterSecond, pool, id);
    } else if LeftAlone(gaps, pool, id) && Untouched(held + afterFirst + afterSecond, pool, id) {
      UntouchedParts(held, afterFirst, afterSecond, pool, id);
      hide C.Run, C.Next, Attempted, Live, Untouched, NoLaterThan, C.Pool, Attempt.TenantKey, Attempt.ApplicationKey;
      OthersUntouched(store, a, limits, gaps, pool, id, now);
      RunKeepsLive(admitted, held, pool, id, now);
      ReleasedSpares(granted, LeasesOf(a), afterFirst, afterSecond, pool, id, now);
    }
  }

  lemma UntouchedParts(a: seq<C.Event>, b: seq<C.Event>, c: seq<C.Event>, pool: string, id: C.LeaseId)
    requires Untouched(a + b + c, pool, id)
    ensures Untouched(a, pool, id) && Untouched(b, pool, id) && Untouched(c, pool, id)
  {
    var all := a + b + c;
    assert forall i :: 0 <= i < |a| ==> a[i] == all[i];
    assert forall i :: 0 <= i < |b| ==> b[i] == all[|a| + i];
    assert forall i :: 0 <= i < |c| ==> c[i] == all[|a| + |b| + i];
  }

  /** After a granted attempt its identifiers are in their pools only. */
  lemma MineIsWhere(store: C.Store, a: Attempt, limits: Limits, gaps: Gaps, pool: string, id: C.LeaseId)
    requires NewIds(store, a) && ForeignGaps(a, gaps) && Mine(a, id) && Attempted(store, a, limits, gaps).1 == Leased
    ensures id in C.Pool(Attempted(store, a, limits, gaps).0, pool) ==> Among(LeasesOf(a), pool, id)
  {
    hide C.Run, C.Next, C.AnswerTo, C.Pool, Foreign, Attempt.TenantKey, Attempt.ApplicationKey;
    var s2' := C.Run(C.Next(C.Run(C.Next(store, a.TenantCall(limits)), gaps.afterTenant), a.ApplicationCall(limits)), gaps.afterApplication);
    SlotsWhere(store, a, limits, gaps, pool, id);
    TrackId(s2', a.CapacityCall(), pool, id);
  }

  lemma ReleasedMine(store: C.Store, a: Attempt, afterFirst: seq<C.Event>, afterSecond: seq<C.Event>, pool: string, id: C.LeaseId)
    requires Mine(a, id) && Foreign(a, afterFirst) && Foreign(a, afterSecond)
    requires id in C.Pool(store, pool) ==> Among(LeasesOf(a), pool, id)
    ensures id !in C.Pool(Released(store, LeasesOf(a), afterFirst, afterSecond), pool)
  {
    hide C.Run, C.Next, C.Pool, Foreign, Attempt.TenantKey, Attempt.ApplicationKey;
    var leases := LeasesOf(a);
    var s1 := C.Next(store, ReleaseOf(leases.capacity));
    var s1' := C.Run(s1, afterFirst);
    var s2 := C.Next(s1', ReleaseOf(leases.applicationSlot));
    var s2' := C.Run(s2, afterSecond);
    ReleaseTakesOutOne(store, leases.capacity, pool, id);
    ForeignRun(s1, afterFirst, a, pool, id);
    ReleaseTakesOutOne(s1', leases.applicationSlot, pool, id);
    ForeignRun(s2, afterSecond, a, pool, id);
    ReleaseTakesOutOne(s2', leases.tenantSlot, pool, id);
  }

  lemma ReleasedSpares(store: C.Store, leases: AdmissionLeases, afterFirst: seq<C.Event>, afterSecond: seq<C.Event>, pool: string,
                       id: C.LeaseId, now: nat)
    requires !Among(leases, pool, id) && Untouched(afterFirst, pool, id) && Untouched(afterSecond, pool, id)
    requires NoLaterThan(afterFirst, now) && NoLaterThan(afterSecond, now)
    ensures SameLive(store, Released(store, leases, afterFirst, afterSecond), pool, id, now)
  {
    hide C.Run, C.Next, Live, Untouched, NoLaterThan, C.Pool;
    var s1 := C.Next(store, ReleaseOf(leases.capacity));
    var s1' := C.Run(s1, afterFirst);
    var s2 := C.Next(s1', ReleaseOf(leases.applicationSlot));
    var s2' := C.Run(s2, afterSecond);
    CallKeepsLive(store, ReleaseOf(leases.capacity), pool, id, now);
    RunKeepsLive(s1, afterFirst, pool, id, now);
    CallKeepsLive(s1', ReleaseOf(leases.applicationSlot), pool, id, now);
    RunKeepsLive(s2, afterSecond, pool, id, now);
    CallKeepsLive(s2', ReleaseOf(leases.tenantSlot), pool, id, now);
  }
}
