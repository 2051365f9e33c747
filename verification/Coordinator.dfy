/** The in-memory lease coordinator: capacity pools, each a map from lease id to its units, expiry
    and optional scope. */
module Coordinator {
  import opened Sums

  type LeaseId = nat

  datatype Entry = Entry(units: real, expiry: nat, scope: Option<string>)

  type Leases = map<LeaseId, Entry>
  type Store = map<string, Leases>

  /** What a caller may ask. The identifier that the coordinator would draw at random is part of
      the request. */
  datatype Op =
    | Reserve(pool: string, limit: real, units: real, ttl: nat, id: LeaseId)
    | ReserveScoped(pool: string, scope: string, limit: real, scopeLimit: real, units: real, ttl: nat, id: LeaseId)
    | Release(pool: string, id: LeaseId)
    | Renew(pool: string, id: LeaseId, ttl: nat)

  datatype Answer = Granted | Refused | Invalid | Released | Renewed(found: bool)

  datatype Event = Event(op: Op, now: nat)

  // ------------------------------------------------------------------------------- specification

  function Pool(store: Store, pool: string): Leases
  {
    if pool in store then store[pool] else map[]
  }

  function Purge(leases: Leases, now: nat): Leases
  {
    map i | i in leases && leases[i].expiry > now :: leases[i]
  }

  function AllUnits(leases: Leases): map<LeaseId, real>
  {
    map i | i in leases :: leases[i].units
  }

  function ScopeUnits(leases: Leases, scope: string): map<LeaseId, real>
  {
    map i | i in leases && leases[i].scope == Some(scope) :: leases[i].units
  }

  ghost function Used(leases: Leases): real { Sum(AllUnits(leases)) }

  ghost function ScopeUsed(leases: Leases, scope: string): real { Sum(ScopeUnits(leases, scope)) }

  /** The units asked for fit beside the live leases. */
  ghost predicate Fits(live: Leases, op: Op)
    requires op.Reserve? || op.ReserveScoped?
  {
    && Used(live) + op.units <= op.limit
    && (op.ReserveScoped? ==> ScopeUsed(live, op.scope) + op.units <= op.scopeLimit)
  }

  predicate ValidLimits(op: Op)
    requires op.Reserve? || op.ReserveScoped?
  {
    op.units >= 0.0 && (op.ReserveScoped? ==> op.limit >= 0.0 && op.scopeLimit >= 0.0)
  }

  function NewEntry(op: Op, now: nat): Entry
    requires op.Reserve? || op.ReserveScoped?
  {
    Entry(op.units, now + op.ttl, if op.ReserveScoped? then Some(op.scope) else None)
  }

  ghost function ReserveAnswer(store: Store, op: Op, now: nat): Answer
    requires op.Reserve? || op.ReserveScoped?
  {
    if !ValidLimits(op) then Invalid
    else if Fits(Purge(Pool(store, op.pool), now), op) then Granted
    else Refused
  }

  ghost function ReserveStore(store: Store, op: Op, now: nat): Store
    requires op.Reserve? || op.ReserveScoped?
  {
    var live := Purge(Pool(store, op.pool), now);
    match ReserveAnswer(store, op, now)
    case Granted => store[op.pool := live[op.id := NewEntry(op, now)]]
    case Refused => store[op.pool := live]
    case _ => store
  }

  ghost function AnswerTo(store: Store, e: Event): Answer
  {
    match e.op
    case Release(_, _) => Released
    case Renew(pool, id, _) => Renewed(id in Pool(store, pool))
    case _ => ReserveAnswer(store, e.op, e.now)
  }

  ghost function Next(store: Store, e: Event): Store
  {
    match e.op
    case Release(pool, id) => if pool in store then store[pool := store[pool] - {id}] else store
    case Renew(pool, id, ttl) =>
      if id in Pool(store, pool) then
        store[pool := store[pool][id := store[pool][id].(expiry := e.now + ttl)]]
      else store
    case _ => ReserveStore(store, e.op, e.now)
  }

  ghost function Run(store: Store, es: seq<Event>): Store
    decreases |es|
  {
    if es == [] then store else Run(Next(store, es[0]), es[1..])
  }

  // ---------------------------------------------------------------------------- the coordinator

  class InMemoryCoordinator {
    var state: Store

    constructor ()
      ensures state == map[]
    {
      state := map[];
    }

    method Reserve(pool: string, limit: real, units: real, ttl: nat, now: nat, id: LeaseId) returns (answer: Answer)
      modifies this
      ensures answer == AnswerTo(old(state), Event(Op.Reserve(pool, limit, units, ttl, id), now))
      ensures state == Next(old(state), Event(Op.Reserve(pool, limit, units, ttl, id), now))
    {
      if units < 0.0 { return Invalid; }
      var leases := Retain(if pool in state then state[pool] else map[], now);
      state := state[pool := leases];
      var used := Total(AllUnits(leases));
      if used + units > limit { return Refused; }
      state := state[pool := leases[id := Entry(units, now + ttl, None)]];
      return Granted;
    }

    method ReserveScoped(pool: string, scope: string, limit: real, scopeLimit: real, units: real, ttl: nat, now: nat,
                         id: LeaseId) returns (answer: Answer)
      modifies this
      ensures answer == AnswerTo(old(state), Event(Op.ReserveScoped(pool, scope, limit, scopeLimit, units, ttl, id), now))
      ensures state == Next(old(state), Event(Op.ReserveScoped(pool, scope, limit, scopeLimit, units, ttl, id), now))
    {
      if limit < 0.0 || scopeLimit < 0.0 || units < 0.0 { return Invalid; }
      var leases := Retain(if pool in state then state[pool] else map[], now);
      state := state[pool := leases];
      var used := Total(AllUnits(leases));
      var scopeUsed := Total(ScopeUnits(leases, scope));
      if used + units > limit || scopeUsed + units > scopeLimit { return Refused; }
      state := state[pool := leases[id := Entry(units, now + ttl, Some(scope))]];
      return Granted;
    }

    method Release(pool: string, id: LeaseId, now: nat)
      modifies this
      ensures state == Next(old(state), Event(Op.Release(pool, id), now))
    {
      if pool in state {
        state := state[pool := state[pool] - {id}];
      }
    }

    method Renew(pool: string, id: LeaseId, ttl: nat, now: nat) returns (found: bool)
      modifies this
      ensures Renewed(found) == AnswerTo(old(state), Event(Op.Renew(pool, id, ttl), now))
      ensures state == Next(old(state), Event(Op.Renew(pool, id, ttl), now))
    {
      if pool !in state || id !in state[pool] { return false; }
      state := state[pool := state[pool][id := state[pool][id].(expiry := now + ttl)]];
      return true;
    }
  }

  /** Drops every lease whose expiry has come, in whatever order the map yields them. */
  method Retain(leases: Leases, now: nat) returns (live: Leases)
    ensures live == Purge(leases, now)
  {
    live := leases;
    var todo := leases.Keys;
    while todo != {}
      invariant todo <= leases.Keys
      invariant live.Keys == Purge(leases, now).Keys + todo
      invariant forall i :: i in live ==> live[i] == leases[i]
      decreases todo
    {
      var i :| i in todo;
      todo := todo - {i};
      if live[i].expiry <= now {
        live := live - {i};
      }
    }
  }

  method Total(amounts: map<LeaseId, real>) returns (sum: real)
    ensures sum == Sum(amounts)
  {
    sum := 0.0;
    var rest := amounts;
    while rest != map[]
      invariant rest.Keys <= amounts.Keys
      invariant sum + Sum(rest) == Sum(amounts)
      decreases rest.Keys
    {
      var i :| i in rest.Keys;
      SumRemove(rest, i);
      sum := sum + rest[i];
      rest := rest - {i};
    }
  }
}
