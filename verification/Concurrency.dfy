/** Concurrency slots per tenant and per application, counted in two maps that keep no zero. */
module Concurrency {
  import opened Sums

  datatype Identity = Identity(tenant: string, application: string)

  type Counters = map<string, nat>

  datatype Limits = Limits(tenants: map<string, nat>, applications: map<string, nat>)

  /** A name without a policy gets one slot. */
  function LimitFor(limits: map<string, nat>, name: string): nat { if name in limits then limits[name] else 1 }

  function Count(m: Counters, name: string): nat { if name in m then m[name] else 0 }

  function Increment(m: Counters, name: string): Counters { m[name := Count(m, name) + 1] }

  function Decrement(m: Counters, name: string): Counters
  {
    if name !in m then m
    else
      var left := if m[name] > 0 then m[name] - 1 else 0;
      if left == 0 then m - {name} else m[name := left]
  }

  predicate NoZero(m: Counters) { forall name :: name in m ==> m[name] > 0 }

  predicate HasRoom(tenants: Counters, applications: Counters, limits: Limits, who: Identity)
  {
    && Count(tenants, who.tenant) < LimitFor(limits.tenants, who.tenant)
    && Count(applications, who.application) < LimitFor(limits.applications, who.application)
  }

  lemma IncrementCounts(m: Counters, name: string)
    requires NoZero(m)
    ensures NoZero(Increment(m, name))
    ensures forall other :: Count(Increment(m, name), other) == Count(m, other) + if other == name then 1 else 0
  {
  }

  /** Leaving takes exactly one off when a slot is held; at zero it takes nothing, which is where the
      subtraction saturates. */
  lemma DecrementCounts(m: Counters, name: string)
    requires NoZero(m)
    ensures NoZero(Decrement(m, name))
    ensures forall other :: Count(Decrement(m, name), other) ==
                            Count(m, other) - if other == name && Count(m, name) > 0 then 1 else 0
  {
  }

  /** Leaving undoes entering. */
  lemma LeaveUndoesEnter(m: Counters, name: string)
    requires NoZero(m)
    ensures Decrement(Increment(m, name), name) == m
  {
    var after := Decrement(Increment(m, name), name);
    assert after.Keys == m.Keys;
  }

  /** The counters after n entries of the same identity and nothing else. */
  function EnteredTimes(m: Counters, name: string, n: nat): Counters { if n == 0 then m else Increment(EnteredTimes(m, name, n - 1), name) }

  lemma {:induction false} EnteredCounts(name: string, n: nat)
    ensures Count(EnteredTimes(map[], name, n), name) == n
  {
    if n > 0 { EnteredCounts(name, n - 1); }
  }

  /** An identity enters again and again until its tenant or its application has reached its limit, which is one for
      a name without a policy; then it is refused. */
  lemma EntersUpToLimit(who: Identity, limits: Limits, n: nat)
    ensures HasRoom(EnteredTimes(map[], who.tenant, n), EnteredTimes(map[], who.application, n), limits, who) <==>
            && n < (if who.tenant in limits.tenants then limits.tenants[who.tenant] else 1)
            && n < (if who.application in limits.applications then limits.applications[who.application] else 1)
  {
    EnteredCounts(who.tenant, n);
    EnteredCounts(who.application, n);
  }

  class ConcurrencyState {
    var tenants: Counters
    var applications: Counters

    constructor ()
      ensures tenants == map[] && applications == map[]
    {
      tenants, applications := map[], map[];
    }

    method TryEnter(who: Identity, limits: Limits) returns (entered: bool)
      modifies this
      ensures entered <==> HasRoom(old(tenants), old(applications), limits, who)
      ensures tenants == if entered then Increment(old(tenants), who.tenant) else old(tenants)
      ensures applications == if entered then Increment(old(applications), who.application) else old(applications)
    {
      var tenantLimit := if who.tenant in limits.tenants then limits.tenants[who.tenant] else 1;
      var applicationLimit := if who.application in limits.applications then limits.applications[who.application] else 1;
      if (if who.tenant in tenants then tenants[who.tenant] else 0) >= tenantLimit { return false; }
      if (if who.application in applications then applications[who.application] else 0) >= applicationLimit { return false; }
      ForceEnter(who);
      return true;
    }

    method ForceEnter(who: Identity)
      modifies this
      ensures tenants == Increment(old(tenants), who.tenant)
      ensures applications == Increment(old(applications), who.application)
    {
      tenants := tenants[who.tenant := (if who.tenant in tenants then tenants[who.tenant] else 0) + 1];
      applications := applications[who.application := (if who.application in applications then applications[who.application] else 0) + 1];
    }

    method Leave(who: Identity)
      modifies this
      ensures tenants == Decrement(old(tenants), who.tenant)
      ensures applications == Decrement(old(applications), who.application)
    {
      tenants := DecrementIn(tenants, who.tenant);
      applications := DecrementIn(applications, who.application);
    }
  }

  method DecrementIn(values: Counters, key: string) returns (after: Counters)
    ensures after == Decrement(values, key)
  {
    after := values;
    if key in after {
      after := after[key := if after[key] > 0 then after[key] - 1 else 0];
      if after[key] == 0 {
        after := after - {key};
      }
      assert after == Decrement(values, key);
    }
  }
}
