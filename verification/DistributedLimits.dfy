/** When a three-lease attempt is granted, and what the slots of all attempts together come to. */
module DistributedLimits {
  import opened Sums
  import opened Concurrency
  import opened CoordinatorRuns
  import opened Distributed
  import C = Coordinator

  // ------------------------------------------------------------------------------ when it is granted

  ghost function LiveUnits(store: C.Store, pool: string, now: nat): real { C.Used(C.Purge(C.Pool(store, pool), now)) }

  ghost function LiveScope(store: C.Store, pool: string, scope: string, now: nat): real { C.ScopeUsed(C.Purge(C.Pool(store, pool), now), scope) }

  /** There is a slot for the tenant in one store, one for the application in another, and room for the charge in the
      pool and in the tenant's part of it in a third. */
  ghost predicate RoomFor(forTenant: C.Store, forApplication: C.Store, forCapacity: C.Store, a: Attempt, limits: Limits)
  {
    && LiveUnits(forTenant, a.TenantKey(), a.tenantAt) + 1.0 <= (if a.who.tenant in limits.tenants then limits.tenants[a.who.tenant] else 1) as real
    && LiveUnits(forApplication, a.ApplicationKey(), a.applicationAt) + 1.0 <=
       (if a.who.application in limits.applications then limits.applications[a.who.application] else 1) as real
    && a.charged >= 0.0 && a.poolLimit >= 0.0 && a.tenantLimit >= 0.0
    && LiveUnits(forCapacity, a.pool, a.capacityAt) + a.charged <= a.poolLimit
    && LiveScope(forCapacity, a.pool, a.who.tenant, a.capacityAt) + a.charged <= a.tenantLimit
  }

  /** The stores that the second and the third call of an attempt find. */
  ghost function Found(store: C.Store, a: Attempt, limits: Limits, gaps: Gaps): (C.Store, C.Store)
  {
    var s1 := C.Run(C.Next(store, a.TenantCall(limits)), gaps.afterTenant);
    (s1, C.Run(C.Next(s1, a.ApplicationCall(limits)), gaps.afterApplication))
  }

  lemma SlotGrantedIff(store: C.Store, pool: string, limit: nat, ttl: nat, id: C.LeaseId, now: nat)
    ensures C.AnswerTo(store, C.Event(C.Reserve(pool, limit as real, 1.0, ttl, id), now)) == C.Granted <==>
            LiveUnits(store, pool, now) + 1.0 <= limit as real
  {
    hide C.Used, C.Purge;
  }

  lemma CapacityGrantedIff(store: C.Store, a: Attempt)
    ensures C.AnswerTo(store, C.Event(C.ReserveScoped(a.pool, a.who.tenant, a.poolLimit, a.tenantLimit, a.charged, a.ttl, a.capacityId), a.capacityAt))
            == C.Granted <==>
            && a.charged >= 0.0 && a.poolLimit >= 0.0 && a.tenantLimit >= 0.0
            && LiveUnits(store, a.pool, a.capacityAt) + a.charged <= a.poolLimit
            && LiveScope(store, a.pool, a.who.tenant, a.capacityAt) + a.charged <= a.tenantLimit
  {
    hide C.Used, C.ScopeUsed, C.Purge;
  }

  /** Interleaved with any calls of others, an attempt is granted if and only if each of its calls finds room: by
      slots for tenant and application, by units in the pool and in the tenant's part of it. */
  lemma LeasedIffRoomIsFound(store: C.Store, a: Attempt, limits: Limits, gaps: Gaps)
    ensures Attempted(store, a, limits, gaps).1 == Leased <==>
            RoomFor(store, Found(store, a, limits, gaps).0, Found(store, a, limits, gaps).1, a, limits)
  {
    hide C.AnswerTo, C.Next, C.Run, LiveUnits, LiveScope, Attempt.TenantKey, Attempt.ApplicationKey;
    var found := Found(store, a, limits, gaps);
    SlotGrantedIff(store, a.TenantKey(), LimitFor(limits.tenants, a.who.tenant), a.ttl, a.tenantId, a.tenantAt);
    SlotGrantedIff(found.0, a.ApplicationKey(), LimitFor(limits.applications, a.who.application), a.ttl, a.applicationId, a.applicationAt);
    CapacityGrantedIff(found.1, a);
  }

  const PREFIX := "__concurrency__:"

  lemma KeysOf(a: Attempt)
    ensures a.TenantKey() == PREFIX + a.pool + ":tenant:" + a.who.tenant
    ensures a.ApplicationKey() == PREFIX + a.pool + ":application:" + a.who.application
  {
  }

  /** The three pools of an attempt are different. */
  lemma KeysApart(a: Attempt)
    ensures a.TenantKey() != a.ApplicationKey() && a.TenantKey() != a.pool && a.ApplicationKey() != a.pool
  {
    KeysOf(a);
    hide Attempt.TenantKey, Attempt.ApplicationKey;
    var n := |PREFIX + a.pool|;
    assert a.TenantKey()[n + 1] == 't' && a.ApplicationKey()[n + 1] == 'a';
    assert |a.TenantKey()| > |a.pool| && |a.ApplicationKey()| > |a.pool|;
  }

  lemma OtherPoolStays(store: C.Store, e: C.Event, pool: string)
    requires e.op.pool != pool
    ensures C.Pool(C.Next(store, e), pool) == C.Pool(store, pool)
  {
    hide C.Purge, C.Fits;
  }

  /** With no calls of others in between, it is granted if and only if there is room in the store it starts from. */
  lemma LeasedIffRoom(store: C.Store, a: Attempt, limits: Limits)
    ensures Attempted(store, a, limits, NO_GAPS).1 == Leased <==> RoomFor(store, store, store, a, limits)
  {
    KeysApart(a);
    LeasedIffRoomIsFound(store, a, limits, NO_GAPS);
    var found := Found(store, a, limits, NO_GAPS);
    assert found.0 == C.Next(store, a.TenantCall(limits)) && found.1 == C.Next(found.0, a.ApplicationCall(limits));
    hide C.Next, C.Run, C.Pool, Attempted, Attempt.TenantKey, Attempt.ApplicationKey;
    OtherPoolStays(store, a.TenantCall(limits), a.ApplicationKey());
    OtherPoolStays(store, a.TenantCall(limits), a.pool);
    OtherPoolStays(found.0, a.ApplicationCall(limits), a.pool);
  }

  // ---------------------------------------------------------------------- the slots of all attempts

  /** One call of one attempt, or a release or renewal of any lease. */
  datatype Call =
    | TenantSlot(a: Attempt)
    | ApplicationSlot(a: Attempt)
    | CapacityLease(a: Attempt)
    | GiveBack(pool: string, id: C.LeaseId, now: nat)
    | Renewal(pool: string, id: C.LeaseId, ttl: nat, now: nat)

  function EventOf(call: Call, limits: Limits): C.Event
  {
    match call
    case TenantSlot(a) => a.TenantCall(limits)
    case ApplicationSlot(a) => a.ApplicationCall(limits)
    case CapacityLease(a) => a.CapacityCall()
    case GiveBack(pool, id, now) => C.Event(C.Release(pool, id), now)
    case Renewal(pool, id, ttl, now) => C.Event(C.Renew(pool, id, ttl), now)
  }

  function EventsOf(calls: seq<Call>, limits: Limits): seq<C.Event> { seq(|calls|, i requires 0 <= i < |calls| => EventOf(calls[i], limits)) }

  predicate NoColons(s: string) { ':' !in s }

  /** Pool names have no colon in them. */
  predicate PlainPool(call: Call) { call.TenantSlot? || call.ApplicationSlot? || call.CapacityLease? ==> NoColons(call.a.pool) }

  lemma PlainKeysDiffer(p: string, q: string, t: string, u: string)
    requires NoColons(p) && NoColons(q)
    ensures PREFIX + p + ":tenant:" + t == PREFIX + q + ":tenant:" + u ==> p == q && t == u
    ensures PREFIX + p + ":application:" + t == PREFIX + q + ":application:" + u ==> p == q && t == u
    ensures PREFIX + p + ":tenant:" + t != PREFIX + q + ":application:" + u
    ensures PREFIX + p + ":tenant:" + t != q && PREFIX + p + ":application:" + t != q
  {
    assert ":" + "tenant:" == ":tenant:" && ":" + "application:" == ":application:";
    SameStart(p, q, "tenant:" + t, "tenant:" + u);
    SameStart(p, q, "application:" + t, "application:" + u);
    SameStart(p, q, "tenant:" + t, "application:" + u);
    Regroup(p, "tenant:", t);
    Regroup(q, "tenant:", u);
    Regroup(p, "application:", t);
    Regroup(q, "application:", u);
    assert ("tenant:" + t)[0] == 't' && ("application:" + u)[0] == 'a';
    if "tenant:" + t == "tenant:" + u { assert ("tenant:" + t)[7..] == t && ("tenant:" + u)[7..] == u; }
    if "application:" + t == "application:" + u { assert ("application:" + t)[12..] == t && ("application:" + u)[12..] == u; }
    assert (PREFIX + p + ":tenant:" + t)[15] == ':' && (PREFIX + p + ":application:" + t)[15] == ':';
  }

  /** With a colon in its name, a pool can share the slots of one of its tenants with another pool and tenant. */
  lemma ColonsMayClash(a: Attempt, b: Attempt)
    requires a.pool == "p" && a.who.tenant == "x:tenant:y" && b.pool == "p:tenant:x" && b.who.tenant == "y"
    ensures a.TenantKey() == b.TenantKey()
  {
  }

  lemma Regroup(p: string, kind: string, t: string)
    ensures PREFIX + p + (":" + kind) + t == PREFIX + (p + ":" + (kind + t))
  {
  }

  lemma FirstColon(p: string, x: string)
    requires NoColons(p)
    ensures (p + ":" + x)[|p|] == ':' && forall i :: 0 <= i < |p| ==> (p + ":" + x)[i] != ':'
    ensures (p + ":" + x)[..|p|] == p && (p + ":" + x)[|p| + 1..] == x
  {
  }

  lemma SameStart(p: string, q: string, x: string, y: string)
    requires NoColons(p) && NoColons(q)
    ensures PREFIX + (p + ":" + x) == PREFIX + (q + ":" + y) ==> p == q && x == y
  {
    var u, v := p + ":" + x, q + ":" + y;
    FirstColon(p, x);
    FirstColon(q, y);
    assert (PREFIX + u)[|PREFIX|..] == u && (PREFIX + v)[|PREFIX|..] == v;
    if u == v {
      assert |p| == |q|;
    }
  }

  /** Whoever reserves in this pool asks for one unit. */
  ghost predicate OneUnitEach(e: C.Event, pool: string) { (e.op.Reserve? || e.op.ReserveScoped?) && e.op.pool == pool ==> e.op.units == 1.0 }

  ghost predicate AllOnes(leases: C.Leases) { forall id :: id in leases ==> leases[id].units == 1.0 }

  lemma OnesStep(store: C.Store, e: C.Event, pool: string)
    requires AllOnes(C.Pool(store, pool)) && OneUnitEach(e, pool)
    ensures AllOnes(C.Pool(C.Next(store, e), pool))
  {
    hide C.Fits;
  }

  lemma {:induction false} OnesRun(store: C.Store, es: seq<C.Event>, pool: string)
    requires AllOnes(C.Pool(store, pool)) && forall i :: 0 <= i < |es| ==> OneUnitEach(es[i], pool)
    ensures AllOnes(C.Pool(C.Run(store, es), pool))
    decreases |es|
  {
    hide C.Next, C.Pool, AllOnes, OneUnitEach;
    if es != [] {
      OnesStep(store, es[0], pool);
      assert forall i :: 0 <= i < |es[1..]| ==> es[1..][i] == es[i + 1];
      OnesRun(C.Next(store, es[0]), es[1..], pool);
    }
  }

  lemma {:induction false} OnesAddUp(amounts: map<C.LeaseId, real>)
    requires forall id :: id in amounts ==> amounts[id] == 1.0
    ensures Sum(amounts) == |amounts| as real
    decreases |amounts|
  {
    if amounts != map[] {
      var id :| id in amounts;
      var rest := amounts - {id};
      assert rest.Keys == amounts.Keys - {id} && |rest.Keys| == |amounts.Keys| - 1;
      OnesAddUp(rest);
      assert amounts == rest[id := 1.0];
      SumInsert(rest, id, 1.0);
    }
  }

  lemma OnesAreCounted(leases: C.Leases)
    requires AllOnes(leases)
    ensures C.Used(leases) == |leases| as real
  {
    var amounts := C.AllUnits(leases);
    assert amounts.Keys == leases.Keys && |amounts| == |amounts.Keys| && |leases| == |leases.Keys|;
    OnesAddUp(amounts);
  }

  lemma SlotsWithin(es: seq<C.Event>, pool: string, limit: nat)
    requires forall i :: 0 <= i < |es| ==> OneUnitEach(es[i], pool) && GrantsAtMost(es[i].op, pool, limit as real)
    ensures |C.Pool(C.Run(map[], es), pool)| <= limit
  {
    OnesRun(map[], es, pool);
    FixedLimit(es, pool, limit as real);
    OnesAreCounted(C.Pool(C.Run(map[], es), pool));
  }

  lemma TenantCallsAreSlots(call: Call, limits: Limits, pool: string, tenant: string)
    requires NoColons(pool) && PlainPool(call)
    ensures
      var key, e := PREFIX + pool + ":tenant:" + tenant, EventOf(call, limits);
      OneUnitEach(e, key) && GrantsAtMost(e.op, key, LimitFor(limits.tenants, tenant) as real)
  {
    if call.TenantSlot? || call.ApplicationSlot? || call.CapacityLease? {
      KeysOf(call.a);
      hide Attempt.TenantKey, Attempt.ApplicationKey, NoColons;
      PlainKeysDiffer(pool, call.a.pool, tenant, call.a.who.tenant);
      PlainKeysDiffer(pool, call.a.pool, tenant, call.a.who.application);
    }
  }

  lemma ApplicationCallsAreSlots(call: Call, limits: Limits, pool: string, application: string)
    requires NoColons(pool) && PlainPool(call)
    ensures
      var key, e := PREFIX + pool + ":application:" + application, EventOf(call, limits);
      OneUnitEach(e, key) && GrantsAtMost(e.op, key, LimitFor(limits.applications, application) as real)
  {
    if call.TenantSlot? || call.ApplicationSlot? || call.CapacityLease? {
      KeysOf(call.a);
      hide Attempt.TenantKey, Attempt.ApplicationKey, NoColons;
      PlainKeysDiffer(pool, call.a.pool, application, call.a.who.application);
      PlainKeysDiffer(call.a.pool, pool, call.a.who.tenant, application);
    }
  }

  /** Every run of the calls of any attempts, in any order and with any releases and renewals: the slots stored for a
      tenant never outnumber its limit, nor those for an application. */
  lemma SlotsNeverExceedLimits(calls: seq<Call>, limits: Limits, pool: string, tenant: string, application: string)
    requires NoColons(pool) && forall i :: 0 <= i < |calls| ==> PlainPool(calls[i])
    ensures
      var store := C.Run(map[], EventsOf(calls, limits));
      && |C.Pool(store, PREFIX + pool + ":tenant:" + tenant)| <= (if tenant in limits.tenants then limits.tenants[tenant] else 1)
      && |C.Pool(store, PREFIX + pool + ":application:" + application)| <=
         (if application in limits.applications then limits.applications[application] else 1)
  {
    var es := EventsOf(calls, limits);
    hide EventOf, C.Run, OneUnitEach, GrantsAtMost, PlainPool, NoColons;
    forall i | 0 <= i < |es|
      ensures OneUnitEach(es[i], PREFIX + pool + ":tenant:" + tenant)
      ensures GrantsAtMost(es[i].op, PREFIX + pool + ":tenant:" + tenant, LimitFor(limits.tenants, tenant) as real)
      ensures OneUnitEach(es[i], PREFIX + pool + ":application:" + application)
      ensures GrantsAtMost(es[i].op, PREFIX + pool + ":application:" + application, LimitFor(limits.applications, application) as real)
    {
      assert PlainPool(calls[i]);
      TenantCallsAreSlots(calls[i], limits, pool, tenant);
      ApplicationCallsAreSlots(calls[i], limits, pool, application);
    }
    SlotsWithin(es, PREFIX + pool + ":tenant:" + tenant, LimitFor(limits.tenants, tenant));
    SlotsWithin(es, PREFIX + pool + ":application:" + application, LimitFor(limits.applications, application));
  }
}
