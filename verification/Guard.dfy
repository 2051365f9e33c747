/** The guard that owns every claim of an admitted request. It settles when the response is complete, and
    otherwise when it is dropped; a completed guard is dropped too, and its flags make that harmless. */
module Guard {
  import opened Sums
  import opened Concurrency
  import opened CoordinatorRuns
  import opened Distributed
  import C = Coordinator
  import Capacity

  class Metrics {
    var active: int
  }

  /** What a guard gives back to, as values. */
  datatype Books = Books(store: C.Store, ledger: Capacity.Ledger, tenants: Counters, applications: Counters, active: int)

  /** What a guard still has to give back. */
  datatype Claims = Claims(leases: Option<AdmissionLeases>, slot: bool, counted: bool)

  function LocalSettled(books: Books, who: Identity, claims: Claims): Books
  {
    books.(tenants := if claims.slot then Decrement(books.tenants, who.tenant) else books.tenants,
           applications := if claims.slot then Decrement(books.applications, who.application) else books.applications,
           active := if claims.counted then books.active - 1 else books.active)
  }

  function LedgerSettled(books: Books, configured: real, claims: Claims, units: real, actual: Option<real>, throttled: bool): Books
  {
    if claims.leases.None? then books
    else books.(ledger := Capacity.Next(configured, books.ledger,
                                        Capacity.Release(claims.leases.value.capacity.1, units, actual, throttled)))
  }

  ghost function StoreSettled(books: Books, claims: Claims): Books
  {
    if claims.leases.None? then books else books.(store := Released(books.store, claims.leases.value, [], []))
  }

  /** Everything claimed is given back, each thing once. */
  ghost function Settled(books: Books, configured: real, who: Identity, claims: Claims, units: real, actual: Option<real>, throttled: bool): Books
  {
    LocalSettled(LedgerSettled(StoreSettled(books, claims), configured, claims, units, actual, throttled), who, claims)
  }

  class ActiveAdmissionGuard {
    const coordinator: C.InMemoryCoordinator
    const capacity: Capacity.CapacityModel
    const concurrency: ConcurrencyState
    const metrics: Metrics
    const who: Identity
    const units: real
    var leases: Option<AdmissionLeases>
    var concurrencyEntered: bool
    var countedActive: bool

    ghost function Claimed(): Claims
      reads this
    {
      Claims(leases, concurrencyEntered, countedActive)
    }

    ghost function Ledgers(): Books
      reads coordinator, capacity, concurrency, metrics
    {
      Books(coordinator.state, capacity.Value(), concurrency.tenants, concurrency.applications, metrics.active)
    }

    constructor (coordinator: C.InMemoryCoordinator, capacity: Capacity.CapacityModel, concurrency: ConcurrencyState,
                 metrics: Metrics, who: Identity, units: real, leases: Option<AdmissionLeases>, concurrencyEntered: bool)
      modifies metrics
      ensures this.coordinator == coordinator && this.capacity == capacity && this.concurrency == concurrency && this.metrics == metrics
      ensures this.who == who && this.units == units && Claimed() == Claims(leases, concurrencyEntered, true)
      ensures metrics.active == old(metrics.active) + 1
    {
      this.coordinator, this.capacity, this.concurrency, this.metrics := coordinator, capacity, concurrency, metrics;
      this.who, this.units, this.leases, this.concurrencyEntered, this.countedActive := who, units, leases, concurrencyEntered, true;
      new;
      metrics.active := metrics.active + 1;
    }

    method ReleaseLocal()
      modifies this`concurrencyEntered, this`countedActive, concurrency, metrics
      ensures Ledgers() == LocalSettled(old(Ledgers()), who, old(Claimed()))
      ensures !concurrencyEntered && !countedActive
    {
      if concurrencyEntered {
        concurrency.Leave(who);
        concurrencyEntered := false;
      }
      if countedActive {
        metrics.active := metrics.active - 1;
        countedActive := false;
      }
    }

    method Complete(actual: Option<real>, throttled: bool)
      modifies this, coordinator, capacity, concurrency, metrics
      ensures Ledgers() == Settled(old(Ledgers()), capacity.configured, who, old(Claimed()), units, actual, throttled)
      ensures Claimed() == Claims(None, false, false)
    {
      if leases.Some? {
        var taken := leases.value;
        leases := None;
        ReleaseDistributed(coordinator, taken);
        var found := capacity.Release(taken.capacity.1, units, actual, throttled);
      }
      ReleaseLocal();
    }

    /** Dropping settles what is local at once; the leases are handed to a spawned task. */
    method Drop() returns (spawned: Option<AdmissionLeases>)
      modifies this, capacity, concurrency, metrics
      ensures spawned == old(leases) && Claimed() == Claims(None, false, false)
      ensures Ledgers() == LocalSettled(LedgerSettled(old(Ledgers()), capacity.configured, old(Claimed()), units, None, false), who, old(Claimed()))
    {
      spawned := leases;
      if leases.Some? {
        leases := None;
        var found := capacity.Release(spawned.value.capacity.1, units, None, false);
      }
      ReleaseLocal();
    }

    method RunSpawned(spawned: Option<AdmissionLeases>)
      modifies coordinator
      ensures Ledgers() == StoreSettled(old(Ledgers()), Claims(spawned, false, false))
    {
      if spawned.Some? {
        ReleaseDistributed(coordinator, spawned.value);
      }
    }

    /** The end of every response: completion, then the drop that the language adds. */
    method CompleteThenDrop(actual: Option<real>, throttled: bool)
      modifies this, coordinator, capacity, concurrency, metrics
      ensures Ledgers() == Settled(old(Ledgers()), capacity.configured, who, old(Claimed()), units, actual, throttled)
      ensures Claimed() == Claims(None, false, false)
    {
      Complete(actual, throttled);
      var spawned := Drop();
      RunSpawned(spawned);
    }

    /** Every early return and every dropped future: the drop alone, and its spawned task to the end. */
    method DropToTheEnd()
      modifies this, coordinator, capacity, concurrency, metrics
      ensures Ledgers() == Settled(old(Ledgers()), capacity.configured, who, old(Claimed()), units, None, false)
      ensures Claimed() == Claims(None, false, false)
    {
      var spawned := Drop();
      RunSpawned(spawned);
    }
  }

  /** A whole life: admission books a slot, three leases, a ledger entry and an active request; settling
      gives back every one of them, whatever calls others make to the coordinator meanwhile. Calibration is
      the only thing that remembers the request. */
  lemma SettlingUndoesAdmission(before: Books, configured: real, a: Attempt, limits: Limits, gaps: Gaps, held: seq<C.Event>, units: real,
                                actual: Option<real>, throttled: bool, pool: string, id: C.LeaseId, now: nat)
    requires NoZero(before.tenants) && NoZero(before.applications) && a.capacityId !in before.ledger.reservations
    requires NewIds(before.store, a) && Attempted(before.store, a, limits, gaps).1 == Leased
    requires ForeignGaps(a, gaps) && InTime(a, gaps, now) && Foreign(a, held) && NoLaterThan(held, now)
    ensures
      var granted := C.Run(Attempted(before.store, a, limits, gaps).0, held);
      var ledger := Capacity.Next(configured, before.ledger, Capacity.TrackDistributed(a.capacityId, a.charged));
      var admitted := Books(granted, ledger, Increment(before.tenants, a.who.tenant), Increment(before.applications, a.who.application), before.active + 1);
      var after := Settled(admitted, configured, a.who, Claims(Some(LeasesOf(a)), true, true), units, actual, throttled);
      && after.tenants == before.tenants && after.applications == before.applications && after.active == before.active
      && after.ledger.reservations == before.ledger.reservations && after.ledger.observations == before.ledger.observations + 1
      && after.ledger.calibration == Capacity.Recalibrate(before.ledger.calibration, Capacity.Observed(units, actual, throttled))
      && (Mine(a, id) ==> id !in C.Pool(after.store, pool))
      && (!Mine(a, id) && LeftAlone(gaps, pool, id) && Untouched(held, pool, id) ==> SameLive(before.store, after.store, pool, id, now))
  {
    hide Increment, Decrement, Capacity.Recalibrate, Capacity.Lowered, Capacity.Observed, Released, C.Run, Attempted, SameLive, NewIds, ForeignGaps,
         InTime, Mine, LeftAlone;
    LeaveUndoesEnter(before.tenants, a.who.tenant);
    LeaveUndoesEnter(before.applications, a.who.application);
    ReleaseUndoesReserve(before.store, a, limits, gaps, held, [], [], pool, id, now);
    assert held + [] + [] == held;
    assert before.ledger.reservations[a.capacityId := a.charged] - {a.capacityId} == before.ledger.reservations;
  }
}
