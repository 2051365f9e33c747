/** What the lease coordinator guarantees over whole runs: limits that hold for any clock readings,
    and how long a lease counts. */
module CoordinatorRuns {
  import opened Sums
  import opened Coordinator

  // --------------------------------------------------------------------- limits under any clock

  /** The limits given with the latest successful grant, per pool and per scope of a pool. */
  datatype GrantedLimits = GrantedLimits(pools: map<string, real>, scopes: map<(string, string), real>)

  ghost function PoolLimit(limits: GrantedLimits, pool: string): real
  {
    if pool in limits.pools then limits.pools[pool] else 0.0
  }

  ghost function ScopeLimit(limits: GrantedLimits, pool: string, scope: string): real
  {
    if (pool, scope) in limits.scopes then limits.scopes[(pool, scope)] else 0.0
  }

  ghost function NextLimits(store: Store, limits: GrantedLimits, e: Event): GrantedLimits
  {
    if AnswerTo(store, e) != Granted then limits
    else match e.op
      case Reserve(pool, limit, _, _, _) => limits.(pools := limits.pools[pool := limit])
      case ReserveScoped(pool, scope, limit, scopeLimit, _, _, _) =>
        GrantedLimits(limits.pools[pool := limit], limits.scopes[(pool, scope) := scopeLimit])
      case _ => limits
  }

  ghost function RunLimits(store: Store, limits: GrantedLimits, es: seq<Event>): GrantedLimits
    decreases |es|
  {
    if es == [] then limits else RunLimits(Next(store, es[0]), NextLimits(store, limits, es[0]), es[1..])
  }

  ghost predicate LeasesWithin(leases: Leases, limits: GrantedLimits, pool: string)
  {
    && NonNegative(AllUnits(leases))
    && Used(leases) <= PoolLimit(limits, pool)
    && forall scope :: ScopeUsed(leases, scope) <= ScopeLimit(limits, pool, scope)
  }

  ghost predicate Within(store: Store, limits: GrantedLimits)
  {
    forall pool :: LeasesWithin(Pool(store, pool), limits, pool)
  }

  /** Removing leases, by purge or release, never raises what is used. */
  lemma FewerLeasesUseLess(small: Leases, big: Leases)
    requires forall i :: i in small ==> i in big && small[i] == big[i]
    requires NonNegative(AllUnits(big))
    ensures NonNegative(AllUnits(small)) && Used(small) <= Used(big)
    ensures forall scope :: ScopeUsed(small, scope) <= ScopeUsed(big, scope)
  {
    SumSubmap(AllUnits(small), AllUnits(big));
    forall scope ensures ScopeUsed(small, scope) <= ScopeUsed(big, scope) {
      SumSubmap(ScopeUnits(small, scope), ScopeUnits(big, scope));
    }
  }

  lemma StoredScope(leases: Leases, id: LeaseId, entry: Entry, scope: string)
    ensures ScopeUsed(leases[id := entry], scope) ==
            ScopeUsed(leases - {id}, scope) + if entry.scope == Some(scope) then entry.units else 0.0
  {
    var rest, after := leases - {id}, leases[id := entry];
    if entry.scope == Some(scope) {
      assert ScopeUnits(after, scope) == ScopeUnits(rest, scope)[id := entry.units];
      SumInsert(ScopeUnits(rest, scope), id, entry.units);
    } else {
      assert ScopeUnits(after, scope) == ScopeUnits(rest, scope);
    }
  }

  /** Storing a lease raises what its pool and its scope use by at most its units. */
  lemma StoredLeaseAdds(leases: Leases, id: LeaseId, entry: Entry)
    requires NonNegative(AllUnits(leases)) && entry.units >= 0.0
    ensures NonNegative(AllUnits(leases[id := entry]))
    ensures Used(leases[id := entry]) <= Used(leases) + entry.units
    ensures forall scope :: ScopeUsed(leases[id := entry], scope) <=
                            ScopeUsed(leases, scope) + if entry.scope == Some(scope) then entry.units else 0.0
  {
    hide ScopeUsed;
    var rest := leases - {id};
    FewerLeasesUseLess(rest, leases);
    assert AllUnits(leases[id := entry]) == AllUnits(rest)[id := entry.units];
    SumInsert(AllUnits(rest), id, entry.units);
    forall scope { StoredScope(leases, id, entry, scope); }
  }

  /** Renewing changes no units and no scope, so it changes nothing that is counted. */
  lemma RenewedUseSame(leases: Leases, id: LeaseId, expiry: nat)
    requires id in leases
    ensures AllUnits(leases[id := leases[id].(expiry := expiry)]) == AllUnits(leases)
    ensures forall scope :: ScopeUnits(leases[id := leases[id].(expiry := expiry)], scope) == ScopeUnits(leases, scope)
  {
  }

  lemma EmptyUsesNothing()
    ensures Used(map[]) == 0.0 && NonNegative(AllUnits(map[]))
    ensures forall scope :: ScopeUsed(map[], scope) == 0.0
  {
    assert AllUnits(map[]) == map[];
    forall scope ensures ScopeUsed(map[], scope) == 0.0 { assert ScopeUnits(map[], scope) == map[]; }
  }

  lemma ReserveWithin(store: Store, limits: GrantedLimits, e: Event)
    requires (e.op.Reserve? || e.op.ReserveScoped?) && LeasesWithin(Pool(store, e.op.pool), limits, e.op.pool)
    ensures LeasesWithin(Pool(Next(store, e), e.op.pool), NextLimits(store, limits, e), e.op.pool)
  {
    var op, leases := e.op, Pool(store, e.op.pool);
    var live := Purge(leases, e.now);
    FewerLeasesUseLess(live, leases);
    if ReserveAnswer(store, op, e.now) == Granted {
      StoredLeaseAdds(live, op.id, NewEntry(op, e.now));
    }
    hide Used, ScopeUsed, AllUnits, Purge, NonNegative;
  }

  lemma WithinAtPool(store: Store, limits: GrantedLimits, e: Event)
    requires LeasesWithin(Pool(store, e.op.pool), limits, e.op.pool)
    ensures LeasesWithin(Pool(Next(store, e), e.op.pool), NextLimits(store, limits, e), e.op.pool)
  {
    match e.op
    case Release(pool, id) =>
      FewerLeasesUseLess(Pool(store, pool) - {id}, Pool(store, pool));
    case Renew(pool, id, ttl) =>
      if id in Pool(store, pool) { RenewedUseSame(store[pool], id, e.now + ttl); }
    case _ =>
      ReserveWithin(store, limits, e);
  }

  lemma OtherPoolsKept(store: Store, limits: GrantedLimits, e: Event, pool: string)
    requires pool != e.op.pool
    ensures Pool(Next(store, e), pool) == Pool(store, pool)
    ensures PoolLimit(NextLimits(store, limits, e), pool) == PoolLimit(limits, pool)
    ensures forall scope :: ScopeLimit(NextLimits(store, limits, e), pool, scope) == ScopeLimit(limits, pool, scope)
  {
  }

  lemma WithinStep(store: Store, limits: GrantedLimits, e: Event)
    requires Within(store, limits)
    ensures Within(Next(store, e), NextLimits(store, limits, e))
  {
    hide Pool, Next, NextLimits, PoolLimit, ScopeLimit, Used, ScopeUsed, AllUnits, NonNegative;
    forall pool ensures LeasesWithin(Pool(Next(store, e), pool), NextLimits(store, limits, e), pool) {
      assert LeasesWithin(Pool(store, pool), limits, pool);
      if pool == e.op.pool {
        WithinAtPool(store, limits, e);
      } else {
        OtherPoolsKept(store, limits, e, pool);
      }
    }
  }

  lemma {:induction false} WithinRun(store: Store, limits: GrantedLimits, es: seq<Event>)
    requires Within(store, limits)
    ensures Within(Run(store, es), RunLimits(store, limits, es))
    decreases |es|
  {
    if es != [] {
      WithinStep(store, limits, es[0]);
      WithinRun(Next(store, es[0]), NextLimits(store, limits, es[0]), es[1..]);
    }
  }

  /** Every run, with clock readings that may be stale or go backwards: what a pool stores never
      exceeds the limit of its latest grant, nor what a scope stores the scope limit of its latest
      grant, even after renewals of expired leases. */
  lemma HardLimit(es: seq<Event>, pool: string, scope: string)
    ensures
      var store, limits := Run(map[], es), RunLimits(map[], GrantedLimits(map[], map[]), es);
      && NonNegative(AllUnits(Pool(store, pool)))
      && Used(Pool(store, pool)) <= PoolLimit(limits, pool)
      && ScopeUsed(Pool(store, pool), scope) <= ScopeLimit(limits, pool, scope)
  {
    EmptyUsesNothing();
    WithinRun(map[], GrantedLimits(map[], map[]), es);
    assert LeasesWithin(Pool(Run(map[], es), pool), RunLimits(map[], GrantedLimits(map[], map[]), es), pool);
  }

  /** With one fixed limit for the pool, that limit is never exceeded. */
  lemma FixedLimit(es: seq<Event>, pool: string, limit: real)
    requires limit >= 0.0
    requires forall i :: 0 <= i < |es| ==> GrantsAtMost(es[i].op, pool, limit)
    ensures Used(Pool(Run(map[], es), pool)) <= limit
  {
    HardLimit(es, pool, "");
    LimitsAtMost(map[], GrantedLimits(map[], map[]), es, pool, limit);
  }

  ghost predicate GrantsAtMost(op: Op, pool: string, limit: real)
  {
    (op.Reserve? || op.ReserveScoped?) && op.pool == pool ==> op.limit <= limit
  }

  lemma {:induction false} LimitsAtMost(store: Store, limits: GrantedLimits, es: seq<Event>, pool: string, limit: real)
    requires PoolLimit(limits, pool) <= limit
    requires forall i :: 0 <= i < |es| ==> GrantsAtMost(es[i].op, pool, limit)
    ensures PoolLimit(RunLimits(store, limits, es), pool) <= limit
    decreases |es|
  {
    if es != [] {
      assert GrantsAtMost(es[0].op, pool, limit);
      LimitsAtMost(Next(store, es[0]), NextLimits(store, limits, es[0]), es[1..], pool, limit);
    }
  }

  // ------------------------------------------------------------------------- how long a lease counts

  ghost predicate Untouched(es: seq<Event>, pool: string, id: LeaseId)
  {
    forall i :: 0 <= i < |es| ==> es[i].op.pool != pool || es[i].op.id != id
  }

  ghost predicate NoLaterThan(es: seq<Event>, now: nat)
  {
    forall i :: 0 <= i < |es| ==> es[i].now <= now
  }

  /** What a grant or a renewal stores. */
  lemma GrantStores(store: Store, e: Event)
    ensures AnswerTo(store, e) == Granted ==>
              e.op.id in Pool(Next(store, e), e.op.pool) && Pool(Next(store, e), e.op.pool)[e.op.id] == NewEntry(e.op, e.now)
    ensures AnswerTo(store, e) == Renewed(true) ==>
              && e.op.id in Pool(store, e.op.pool) && e.op.id in Pool(Next(store, e), e.op.pool)
              && Pool(Next(store, e), e.op.pool)[e.op.id] == Pool(store, e.op.pool)[e.op.id].(expiry := e.now + e.op.ttl)
  {
  }

  lemma {:induction false} LeaseSurvives(store: Store, es: seq<Event>, pool: string, id: LeaseId, now: nat)
    requires id in Pool(store, pool) && Untouched(es, pool, id) && NoLaterThan(es, now)
    requires now < Pool(store, pool)[id].expiry
    ensures id in Pool(Run(store, es), pool) && Pool(Run(store, es), pool)[id] == Pool(store, pool)[id]
    decreases |es|
  {
    if es != [] {
      assert es[0].op.pool != pool || es[0].op.id != id;
      assert es[0].now <= now;
      assert Pool(Next(store, es[0]), pool)[id] == Pool(store, pool)[id];
      assert forall i :: 0 <= i < |es[1..]| ==> es[1..][i] == es[i + 1];
      LeaseSurvives(Next(store, es[0]), es[1..], pool, id, now);
    }
  }

  lemma {:induction false} EntryKeptOrGone(store: Store, es: seq<Event>, pool: string, id: LeaseId)
    requires Untouched(es, pool, id)
    ensures id in Pool(Run(store, es), pool) ==>
              id in Pool(store, pool) && Pool(Run(store, es), pool)[id] == Pool(store, pool)[id]
    decreases |es|
  {
    if es != [] {
      assert es[0].op.pool != pool || es[0].op.id != id;
      assert forall i :: 0 <= i < |es[1..]| ==> es[1..][i] == es[i + 1];
      EntryKeptOrGone(Next(store, es[0]), es[1..], pool, id);
    }
  }

  /** Under a clock that does not run backwards, a lease that nobody renews or releases is counted
      by a later reserve exactly until its expiry. */
  lemma LeaseLifetime(store: Store, es: seq<Event>, pool: string, id: LeaseId, now: nat)
    requires id in Pool(store, pool) && Untouched(es, pool, id) && NoLaterThan(es, now)
    ensures id in Purge(Pool(Run(store, es), pool), now) <==> now < Pool(store, pool)[id].expiry
    ensures now < Pool(store, pool)[id].expiry ==>
              Purge(Pool(Run(store, es), pool), now)[id] == Pool(store, pool)[id]
  {
    if now < Pool(store, pool)[id].expiry {
      LeaseSurvives(store, es, pool, id, now);
    } else {
      EntryKeptOrGone(store, es, pool, id);
    }
  }

  /** While a lease counts, no grant in its pool can be made out of its units. */
  lemma LeaseIsNotGivenTwice(store: Store, es: seq<Event>, pool: string, id: LeaseId, e: Event)
    requires id in Pool(store, pool) && Untouched(es, pool, id) && NoLaterThan(es, e.now)
    requires e.now < Pool(store, pool)[id].expiry && NonNegative(AllUnits(Pool(Run(store, es), pool)))
    requires (e.op.Reserve? || e.op.ReserveScoped?) && e.op.pool == pool
    requires AnswerTo(Run(store, es), e) == Granted
    ensures Pool(store, pool)[id].units + e.op.units <= e.op.limit
    ensures e.op.ReserveScoped? && Pool(store, pool)[id].scope == Some(e.op.scope) ==>
              Pool(store, pool)[id].units + e.op.units <= e.op.scopeLimit
  {
    LeaseLifetime(store, es, pool, id, e.now);
    var live := Purge(Pool(Run(store, es), pool), e.now);
    FewerLeasesUseLess(live, Pool(Run(store, es), pool));
    OneOfMany(AllUnits(live), id);
    if e.op.ReserveScoped? && Pool(store, pool)[id].scope == Some(e.op.scope) {
      OneOfMany(ScopeUnits(live, e.op.scope), id);
    }
  }

  lemma OneOfMany(amounts: map<LeaseId, real>, id: LeaseId)
    requires id in amounts && NonNegative(amounts)
    ensures amounts[id] <= Sum(amounts)
  {
    SumRemove(amounts, id);
    SumNonNegative(amounts - {id});
  }

  /** After a crash: once every lease of a pool has expired, any request within the limits is granted. */
  lemma CrashRecovery(store: Store, op: Op, now: nat)
    requires op.Reserve? || op.ReserveScoped?
    requires forall i :: i in Pool(store, op.pool) ==> Pool(store, op.pool)[i].expiry <= now
    ensures AnswerTo(store, Event(op, now)) == Granted <==>
              0.0 <= op.units <= op.limit && (op.ReserveScoped? ==> op.units <= op.scopeLimit)
  {
    assert Purge(Pool(store, op.pool), now) == map[];
    EmptyUsesNothing();
  }
}
