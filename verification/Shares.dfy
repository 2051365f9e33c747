/** How much of a pool a tenant may hold while others wait. */
module Shares {
  import opened Sums
  import opened CoordinatorRuns
  import C = Coordinator

  datatype TenantPolicy = TenantPolicy(guaranteedShare: real, maxShare: real)

  type Policies = map<string, TenantPolicy>

  /** What configuration validation asks of the shares; it does not ask that guarantees add up to at most 1. */
  ghost predicate Validated(policies: Policies)
  {
    forall t :: t in policies ==> 0.0 <= policies[t].guaranteedShare <= policies[t].maxShare <= 1.0
  }

  function Guarantee(policies: Policies, tenant: string): real
  {
    if tenant in policies then policies[tenant].guaranteedShare else 0.0
  }

  function MaxShare(policies: Policies, tenant: string): real
  {
    if tenant in policies then policies[tenant].maxShare else 1.0
  }

  function GuaranteesOf(policies: Policies, tenants: set<string>): map<string, real>
  {
    map t | t in tenants :: Guarantee(policies, t)
  }

  /** The tenants with a pending request, other than the one that asks. */
  function Competing(pending: map<nat, string>, tenant: string): set<string>
  {
    set i | i in pending && pending[i] != tenant :: pending[i]
  }

  ghost function Promised(policies: Policies, competing: set<string>): real { Sum(GuaranteesOf(policies, competing)) }

  /** A share of a pool, in units. */
  function Part(pool: real, share: real): real { pool * share }

  ghost function Share(policies: Policies, tenant: string, competing: set<string>): real
  {
    if competing == {} then MaxShare(policies, tenant)
    else Min(MaxShare(policies, tenant),
               Max(1.0 - Min(Promised(policies, competing), 1.0), Guarantee(policies, tenant)))
  }

  ghost function CapacityLimit(policies: Policies, tenant: string, pending: map<nat, string>, poolLimit: real): real
  {
    Part(poolLimit, Share(policies, tenant, Competing(pending, tenant)))
  }

  method TenantCapacityLimit(policies: Policies, tenant: string, pending: map<nat, string>, poolLimit: real) returns (limit: real)
    ensures limit == CapacityLimit(policies, tenant, pending, poolLimit)
  {
    var ownGuarantee := Guarantee(policies, tenant);
    var configuredMax := MaxShare(policies, tenant);
    var competing := Competing(pending, tenant);
    if competing == {} { return poolLimit * configuredMax; }
    var promised, rest := 0.0, competing;
    ghost var counted: set<string> := {};
    EmptySum(policies);
    while rest != {}
      invariant rest <= competing && counted == competing - rest
      invariant promised == Promised(policies, counted)
      decreases rest
    {
      var t :| t in rest;
      rest := rest - {t};
      AddPromise(policies, counted, t);
      counted := counted + {t};
      promised := promised + if t in policies then policies[t].guaranteedShare else 0.0;
    }
    assert counted == competing;
    var reclaimable := Max(1.0 - Min(promised, 1.0), ownGuarantee);
    return poolLimit * Min(configuredMax, reclaimable);
  }

  lemma EmptySum(policies: Policies)
    ensures Promised(policies, {}) == 0.0
  {
    assert GuaranteesOf(policies, {}) == map[];
  }

  lemma AddPromise(policies: Policies, tenants: set<string>, t: string)
    requires t !in tenants
    ensures Promised(policies, tenants + {t}) == Promised(policies, tenants) + Guarantee(policies, t)
  {
    assert GuaranteesOf(policies, tenants + {t}) == GuaranteesOf(policies, tenants)[t := Guarantee(policies, t)];
    SumInsert(GuaranteesOf(policies, tenants), t, Guarantee(policies, t));
  }

  lemma PromisedGrows(policies: Policies, few: set<string>, many: set<string>)
    requires Validated(policies) && few <= many
    ensures 0.0 <= Promised(policies, few) <= Promised(policies, many)
  {
    SumSubmap(GuaranteesOf(policies, few), GuaranteesOf(policies, many));
    SumNonNegative(GuaranteesOf(policies, few));
  }

  lemma Scale(pool: real, a: real, b: real)
    requires pool >= 0.0
    ensures a <= b ==> Part(pool, a) <= Part(pool, b)
    ensures pool > 0.0 && a > b ==> Part(pool, a) > Part(pool, b)
  {
    if a <= b { assert pool * (b - a) >= 0.0; }
    if pool > 0.0 && a > b { assert pool * (a - b) > 0.0; }
  }

  /** Never below the tenant's guarantee, never above its maximum. */
  lemma LimitBetweenShares(policies: Policies, tenant: string, pending: map<nat, string>, pool: real)
    requires Validated(policies) && pool >= 0.0
    ensures Part(pool, Guarantee(policies, tenant)) <= CapacityLimit(policies, tenant, pending, pool)
    ensures CapacityLimit(policies, tenant, pending, pool) <= Part(pool, MaxShare(policies, tenant))
  {
    hide Part, Promised, Competing;
    var share := Share(policies, tenant, Competing(pending, tenant));
    Scale(pool, Guarantee(policies, tenant), share);
    Scale(pool, share, MaxShare(policies, tenant));
  }

  /** More waiting tenants never raise the limit. */
  lemma LimitNeverRises(policies: Policies, tenant: string, pending: map<nat, string>, more: map<nat, string>, pool: real)
    requires Validated(policies) && pool >= 0.0
    requires Competing(pending, tenant) <= Competing(more, tenant)
    ensures CapacityLimit(policies, tenant, more, pool) <= CapacityLimit(policies, tenant, pending, pool)
  {
    hide Part, Promised, Competing;
    var few, many := Competing(pending, tenant), Competing(more, tenant);
    PromisedGrows(policies, few, many);
    EmptySum(policies);
    assert Share(policies, tenant, many) <= Share(policies, tenant, few);
    Scale(pool, Share(policies, tenant, many), Share(policies, tenant, few));
  }

  /** The limit leaves room for the guarantees of all waiting tenants if and only if those guarantees
      and the tenant's own add up to at most the whole pool. */
  lemma LimitLeavesRoomForOthers(policies: Policies, tenant: string, pending: map<nat, string>, pool: real)
    requires Validated(policies) && pool > 0.0
    ensures
      var promised := Promised(policies, Competing(pending, tenant));
      CapacityLimit(policies, tenant, pending, pool) <= Part(pool, 1.0 - promised) <==>
      Guarantee(policies, tenant) + promised <= 1.0
  {
    hide Part, Promised, Competing;
    var competing := Competing(pending, tenant);
    var promised := Promised(policies, competing);
    PromisedGrows(policies, {}, competing);
    EmptySum(policies);
    var share := Share(policies, tenant, competing);
    assert share <= 1.0 - promised <==> Guarantee(policies, tenant) + promised <= 1.0;
    Scale(pool, share, 1.0 - promised);
  }

  /** Unused share is lent: alone, a tenant may have its maximum; while others wait, every amount within its maximum
      that leaves their guarantees free is within its limit. The limit goes beyond that only to be the tenant's own
      guarantee. A tenant without a policy has no guarantee and no maximum but the pool. */
  lemma UnusedShareIsLent(policies: Policies, tenant: string, pending: map<nat, string>, pool: real, x: real)
    requires Validated(policies) && pool > 0.0
    ensures
      var limit, promised := CapacityLimit(policies, tenant, pending, pool), Promised(policies, Competing(pending, tenant));
      var most, own := if tenant in policies then policies[tenant].maxShare else 1.0, if tenant in policies then policies[tenant].guaranteedShare else 0.0;
      && ((forall i :: i in pending ==> pending[i] == tenant || pending[i] !in policies) ==> limit == Part(pool, most))
      && (x <= Part(pool, most) && x <= Part(pool, 1.0 - promised) ==> x <= limit)
      && (limit > Part(pool, 1.0 - promised) ==> limit == Part(pool, own))
  {
    var competing := Competing(pending, tenant);
    var promised := Promised(policies, competing);
    if forall i :: i in pending ==> pending[i] == tenant || pending[i] !in policies { NothingPromised(policies, competing); }
    hide Part, Promised, Competing;
    PromisedGrows(policies, {}, competing);
    EmptySum(policies);
    var most, share := MaxShare(policies, tenant), Share(policies, tenant, competing);
    Scale(pool, Min(most, 1.0 - promised), share);
    Scale(pool, most, 1.0 - promised);
    Scale(pool, 1.0 - promised, most);
    Scale(pool, share, 1.0 - promised);
  }

  lemma {:induction false} NothingPromised(policies: Policies, tenants: set<string>)
    requires forall t :: t in tenants ==> t !in policies
    ensures Promised(policies, tenants) == 0.0
    decreases tenants
  {
    if tenants == {} {
      EmptySum(policies);
    } else {
      var t :| t in tenants;
      NothingPromised(policies, tenants - {t});
      AddPromise(policies, tenants - {t}, t);
      assert tenants - {t} + {t} == tenants;
    }
  }

  const OVERSOLD: Policies := map["a" := TenantPolicy(0.6, 1.0), "b" := TenantPolicy(0.6, 1.0)]

  /** Validated policies may promise more than there is: while the other tenant waits, either may take six tenths of
      the pool and leave the other four. */
  lemma PromisesMayExceedThePool(pool: real)
    requires pool > 0.0
    ensures Validated(OVERSOLD)
    ensures CapacityLimit(OVERSOLD, "a", map[0 := "b"], pool) > Part(pool, 1.0 - Promised(OVERSOLD, Competing(map[0 := "b"], "a")))
  {
    assert Competing(map[0 := "b"], "a") == {"b"} by {
      assert "b" != "a" && map[0 := "b"].Keys == {0};
    }
    OnePromise(OVERSOLD, "b");
    hide Promised, Competing, Part;
    LimitLeavesRoomForOthers(OVERSOLD, "a", map[0 := "b"], pool);
  }

  lemma OnePromise(policies: Policies, t: string)
    ensures Promised(policies, {t}) == Guarantee(policies, t)
  {
    EmptySum(policies);
    AddPromise(policies, {}, t);
    assert {} + {t} == {t};
  }

  /** Every grant made under the limit leaves what the tenant stores in the pool within the limit, hence
      outside the guarantees of the tenants that wait. */
  lemma GrantLeavesRoomForOthers(policies: Policies, tenant: string, pending: map<nat, string>, store: C.Store, e: C.Event)
    requires Validated(policies) && NonNegative(C.AllUnits(C.Pool(store, e.op.pool)))
    requires e.op.ReserveScoped? && e.op.scope == tenant && e.op.limit > 0.0
    requires e.op.scopeLimit == CapacityLimit(policies, tenant, pending, e.op.limit)
    requires Guarantee(policies, tenant) + Promised(policies, Competing(pending, tenant)) <= 1.0
    requires C.AnswerTo(store, e) == C.Granted
    ensures C.ScopeUsed(C.Pool(C.Next(store, e), e.op.pool), tenant) <=
            Part(e.op.limit, 1.0 - Promised(policies, Competing(pending, tenant)))
  {
    hide Part, Promised, Competing, CapacityLimit, C.ScopeUsed, C.Used, C.AllUnits, C.Purge, NonNegative;
    LimitLeavesRoomForOthers(policies, tenant, pending, e.op.limit);
    var leases := C.Pool(store, e.op.pool);
    var live := C.Purge(leases, e.now);
    PurgeKeepsSigns(leases, e.now);
    StoredLeaseAdds(live, e.op.id, C.NewEntry(e.op, e.now));
  }

  lemma PurgeKeepsSigns(leases: C.Leases, now: nat)
    requires NonNegative(C.AllUnits(leases))
    ensures NonNegative(C.AllUnits(C.Purge(leases, now)))
  {
    FewerLeasesUseLess(C.Purge(leases, now), leases);
  }
}
