/** One request as it passes through admission: what its handler, the dispatcher and the settlement
    task are doing with it, step by step. A step is one lock acquisition or one coordinator call, so
    handler and dispatcher may interleave between any two of them. */
module AdmissionRow {
  import opened Sums
  import opened Concurrency
  import Coordinator

  type LeaseId = Coordinator.LeaseId

  datatype Grant = Grant(tenantSlot: LeaseId, applicationSlot: LeaseId, capacity: LeaseId)
  {
    function Leases(): set<LeaseId> { {tenantSlot, applicationSlot, capacity} }
    predicate Distinct() { tenantSlot != applicationSlot && tenantSlot != capacity && applicationSlot != capacity }
    /** The order in which the leases of a grant are released. */
    function ReleaseOrder(): seq<LeaseId> { [capacity, applicationSlot, tenantSlot] }
  }

  /** Progress of a three-lease reservation. */
  datatype Claim =
    | Entered
    | TenantHeld(tenantSlot: LeaseId)
    | BothHeld(tenantSlot: LeaseId, applicationSlot: LeaseId)
    | UndoBoth(tenantSlot: LeaseId, applicationSlot: LeaseId)
    | UndoTenant(tenantSlot: LeaseId)
    | NoneGranted
    | Failed(left: set<LeaseId>)
    | Complete(grant: Grant)
  {
    function Leases(): set<LeaseId>
    {
      match this
      case Entered => {}
      case TenantHeld(t) => {t}
      case BothHeld(t, a) => {t, a}
      case UndoBoth(t, a) => {t, a}
      case UndoTenant(t) => {t}
      case NoneGranted => {}
      case Failed(left) => left
      case Complete(g) => g.Leases()
    }

    predicate Distinct()
    {
      match this
      case BothHeld(t, a) => t != a
      case UndoBoth(t, a) => t != a
      case Complete(g) => g.Distinct()
      case _ => true
    }
  }

  datatype ClaimMove =
    | Take(lease: LeaseId)
    | Refuse
    | Fail
    | Undo(released: bool)

  /** What one coordinator call, with its answer, does to a reservation under way. */
  function ClaimNext(c: Claim, m: ClaimMove): Option<Claim>
  {
    match (c, m)
    case (Entered, Take(l)) => Some(TenantHeld(l))
    case (Entered, Refuse) => Some(NoneGranted)
    case (Entered, Fail) => Some(Failed({}))
    case (TenantHeld(t), Take(l)) => Some(BothHeld(t, l))
    case (TenantHeld(t), Refuse) => Some(UndoTenant(t))
    case (TenantHeld(t), Fail) => Some(Failed({t}))
    case (BothHeld(t, a), Take(l)) => Some(Complete(Grant(t, a, l)))
    case (BothHeld(t, a), Refuse) => Some(UndoBoth(t, a))
    case (BothHeld(t, a), Fail) => Some(Failed({t, a}))
    case (UndoBoth(t, a), Undo(ok)) => Some(if ok then UndoTenant(t) else Failed({t, a}))
    case (UndoTenant(t), Undo(ok)) => Some(if ok then NoneGranted else Failed({t}))
    case _ => None
  }

  function ClaimReleases(c: Claim, m: ClaimMove): set<LeaseId>
  {
    match (c, m)
    case (UndoBoth(_, a), Undo(true)) => {a}
    case (UndoTenant(t), Undo(true)) => {t}
    case _ => {}
  }

  function Takes(m: ClaimMove): set<LeaseId> { if m.Take? then {m.lease} else {} }

  datatype Handler =
    | Arrived
    | Claiming(claim: Claim)
    | Tracking(grant: Grant)
    | Holding(held: Option<Grant>)
    | Unadmitted
    | Enqueued
    | Waiting
    | TimedOut
    | Withdrawn
    | Guarded(held: Option<Grant>)
    | Completing(rest: seq<LeaseId>, capacity: LeaseId)
    | Leaving
    | Uncounting
    | Gone

  datatype Dispatch =
    | Idle
    | Popped
    | Owned
    | Attempt(claim: Claim)
    | Track(grant: Grant)
    | Sending(grant: Grant)
    | Undoing(rest: seq<LeaseId>, capacity: LeaseId)
    | Vacating
    | Retry
    | Reinsert

  /** The one-shot channel between dispatcher and handler. */
  datatype Channel = Unopened | Open | Full(grant: Grant) | Closed

  datatype Row = Row(who: Identity, h: Handler, d: Dispatch, channel: Channel, queued: bool, pending: bool,
                     settling: seq<LeaseId>, grants: nat,
                     orphans: set<LeaseId>, lostSlot: bool, lostLedger: set<LeaseId>)

  function NewRow(who: Identity): Row { Row(who, Arrived, Idle, Unopened, false, false, [], 0, {}, false, {}) }

  datatype Step =
    // the handler
    | Enter | EnterRefused | HandlerClaim(move: ClaimMove) | GiveBack | CoordinatorDown | HandlerComplete
    | HandlerTrack | ForceEnter | Reject | Enqueue | InsertPending | Receive | TimeOut | CancelQueued | RemovePending
    | BuildGuard | ClientGone
    // the guard
    | Finish | ReleaseHeld(released: bool) | SettleLedger | DropGuard | Leave | Uncount | SettleInBackground(released: bool)
    // the dispatcher
    | Pop | TakePending | NoPool | DispatchEnter | DispatchEnterRefused | DispatchClaim(move: ClaimMove) | DispatchGiveBack
    | DispatchComplete | DispatchTrack | Send | UndoSent(released: bool) | UndoLedger | Vacate | Expire | Requeue(accepted: bool) | ReinsertPending

  // --------------------------------------------------------------------------- the effect on the row

  /** What remains of a reservation that ended with an error. */
  function Leftover(c: Claim): set<LeaseId> { if c.Failed? then c.left else {} }

  /** The handler until it owns a guard. */
  function HandlerMoved(r: Row, s: Step): Option<Row>
  {
    match (r.h, s)
    case (Arrived, Enter) => Some(r.(h := Claiming(Entered)))
    case (Arrived, EnterRefused) => Some(r.(h := Unadmitted))
    case (Arrived, ClientGone) => Some(r.(h := Gone))
    case (Claiming(c), HandlerClaim(m)) =>
      var next := ClaimNext(c, m);
      if next.Some? then Some(r.(h := Claiming(next.value))) else None
    case (Claiming(NoneGranted), GiveBack) => Some(r.(h := Unadmitted))
    case (Claiming(Failed(left)), CoordinatorDown) => Some(r.(h := Gone, orphans := r.orphans + left))
    case (Claiming(Complete(g)), HandlerComplete) => Some(r.(h := Tracking(g)))
    // the request future is dropped at one of its awaits, before anything owns the slot
    case (Claiming(c), ClientGone) => Some(r.(h := Gone, orphans := r.orphans + c.Leases(), lostSlot := true))
    case (Tracking(g), HandlerTrack) => Some(r.(h := Holding(Some(g))))
    case (Unadmitted, ForceEnter) => Some(r.(h := Holding(None)))
    case (Unadmitted, Reject) => Some(r.(h := Gone))
    case (Unadmitted, Enqueue) => Some(r.(h := Enqueued, queued := true, channel := Open))
    case (Enqueued, InsertPending) => Some(r.(h := Waiting, pending := true))
    case (Waiting, Receive) =>
      if r.channel.Full? then Some(r.(h := Holding(Some(r.channel.grant)), channel := Closed)) else None
    // the receiver goes away; a grant that was already in the channel goes with it
    case (Waiting, TimeOut) => Some(ReceiverGone(r, TimedOut))
    case (Waiting, ClientGone) => Some(ReceiverGone(r, Gone))
    case (TimedOut, CancelQueued) => Some(r.(h := Withdrawn, queued := false))
    case (Withdrawn, RemovePending) => Some(r.(h := Gone, pending := false))
    case (Holding(g), BuildGuard) => Some(r.(h := Guarded(g)))
    case _ => None
  }

  /** The guard: completion, or drop with the coordinator's part left to a spawned task. */
  function GuardMoved(r: Row, s: Step): Option<Row>
  {
    match (r.h, s)
    case (Guarded(None), Finish) => Some(r.(h := Leaving))
    case (Guarded(Some(g)), Finish) => Some(r.(h := Completing(g.ReleaseOrder(), g.capacity)))
    case (Completing(rest, c), ReleaseHeld(ok)) =>
      if rest == [] then None
      else Some(r.(h := Completing(rest[1..], c), orphans := r.orphans + if ok then {} else {rest[0]}))
    case (Completing(rest, _), SettleLedger) => if rest == [] then Some(r.(h := Leaving)) else None
    case (Guarded(None), DropGuard) => Some(r.(h := Leaving))
    case (Guarded(Some(g)), DropGuard) => Some(r.(h := Leaving, settling := g.ReleaseOrder()))
    case (Leaving, Leave) => Some(r.(h := Uncounting))
    case (Uncounting, Uncount) => Some(r.(h := Gone))
    case (_, SettleInBackground(ok)) =>
      if r.settling == [] then None
      else Some(r.(settling := r.settling[1..], orphans := r.orphans + if ok then {} else {r.settling[0]}))
    case _ => None
  }

  function ReceiverGone(r: Row, next: Handler): Row
  {
    if r.channel.Full? then
      r.(h := next, channel := Closed, lostSlot := true, orphans := r.orphans + r.channel.grant.Leases(),
         lostLedger := r.lostLedger + {r.channel.grant.capacity})
    else
      r.(h := next, channel := Closed)
  }

  /** The dispatcher drops the pending entry with its sender, which wakes a handler that still listens. */
  function SenderGone(r: Row): Row { r.(d := Idle, channel := if r.channel.Open? then Closed else r.channel) }

  function DispatchMoved(r: Row, s: Step): Option<Row>
  {
    match (r.d, s)
    case (Idle, Pop) => if r.queued then Some(r.(d := Popped, queued := false)) else None
    case (Popped, TakePending) => Some(if r.pending then r.(d := Owned, pending := false) else r.(d := Idle))
    case (Owned, NoPool) => Some(SenderGone(r))
    case (Owned, DispatchEnter) => Some(r.(d := Attempt(Entered)))
    case (Owned, DispatchEnterRefused) => Some(r.(d := Retry))
    case (Attempt(c), DispatchClaim(m)) =>
      var next := ClaimNext(c, m);
      if next.Some? then Some(r.(d := Attempt(next.value))) else None
    case (Attempt(c), DispatchGiveBack) =>
      if c.NoneGranted? || c.Failed? then Some(r.(d := Retry, orphans := r.orphans + Leftover(c))) else None
    case (Attempt(Complete(g)), DispatchComplete) => Some(r.(d := Track(g)))
    case (Track(g), DispatchTrack) => Some(r.(d := Sending(g)))
    case (Sending(g), Send) =>
      Some(if r.channel.Open? then r.(d := Idle, channel := Full(g), grants := r.grants + 1)
           else r.(d := Undoing(g.ReleaseOrder(), g.capacity)))
    case (Undoing(rest, c), UndoSent(ok)) =>
      if rest == [] then None
      else Some(r.(d := Undoing(rest[1..], c), orphans := r.orphans + if ok then {} else {rest[0]}))
    case (Undoing(rest, _), UndoLedger) => if rest == [] then Some(r.(d := Vacating)) else None
    case (Vacating, Vacate) => Some(r.(d := Idle))
    case (Retry, Expire) => Some(SenderGone(r))
    case (Retry, Requeue(ok)) => Some(r.(d := Reinsert, queued := ok))
    case (Reinsert, ReinsertPending) => Some(r.(d := Idle, pending := true))
    case _ => None
  }

  predicate ByGuard(s: Step)
  {
    s.Finish? || s.ReleaseHeld? || s.SettleLedger? || s.DropGuard? || s.Leave? || s.Uncount? || s.SettleInBackground?
  }

  predicate ByDispatcher(s: Step)
  {
    s.Pop? || s.TakePending? || s.NoPool? || s.DispatchEnter? || s.DispatchEnterRefused? || s.DispatchClaim? ||
    s.DispatchGiveBack? || s.DispatchComplete? || s.DispatchTrack? || s.Send? || s.UndoSent? || s.UndoLedger? || s.Vacate? ||
    s.Expire? || s.Requeue? || s.ReinsertPending?
  }

  function Moved(r: Row, s: Step): Option<Row>
  {
    if ByDispatcher(s) then DispatchMoved(r, s) else if ByGuard(s) then GuardMoved(r, s) else HandlerMoved(r, s)
  }

  // ------------------------------------------------------------------ the effect outside of the row

  /** Calls of `try_enter` that succeed and `force_enter` count up, calls of `leave` count down. */
  function SlotEffect(s: Step): int
  {
    if s.Enter? || s.DispatchEnter? || s.ForceEnter? then 1
    else if s.GiveBack? || s.CoordinatorDown? || s.DispatchGiveBack? || s.Leave? || s.Vacate? then -1
    else 0
  }

  function ActiveEffect(s: Step): int { if s.BuildGuard? then 1 else if s.Uncount? then -1 else 0 }

  /** Leases that the coordinator stores because of this step. */
  function Stores(s: Step): set<LeaseId>
  {
    if s.HandlerClaim? || s.DispatchClaim? then Takes(s.move) else {}
  }

  /** Leases that the coordinator deletes because of this step. */
  function Deletes(r: Row, s: Step): set<LeaseId>
  {
    match s
    case HandlerClaim(m) => if r.h.Claiming? then ClaimReleases(r.h.claim, m) else {}
    case DispatchClaim(m) => if r.d.Attempt? then ClaimReleases(r.d.claim, m) else {}
    case ReleaseHeld(true) => if r.h.Completing? && r.h.rest != [] then {r.h.rest[0]} else {}
    case UndoSent(true) => if r.d.Undoing? && r.d.rest != [] then {r.d.rest[0]} else {}
    case SettleInBackground(true) => if r.settling != [] then {r.settling[0]} else {}
    case _ => {}
  }

  /** Leases whose release this step gives up: only their expiry will remove them. */
  function Abandoned(r: Row, s: Step): set<LeaseId>
  {
    match s
    case CoordinatorDown => if r.h.Claiming? then Leftover(r.h.claim) else {}
    case ClientGone => if r.h.Claiming? then r.h.claim.Leases() else if r.h.Waiting? then ChannelLeases(r.channel) else {}
    case TimeOut => ChannelLeases(r.channel)
    case DispatchGiveBack => if r.d.Attempt? then Leftover(r.d.claim) else {}
    case ReleaseHeld(false) => if r.h.Completing? && r.h.rest != [] then {r.h.rest[0]} else {}
    case UndoSent(false) => if r.d.Undoing? && r.d.rest != [] then {r.d.rest[0]} else {}
    case SettleInBackground(false) => if r.settling != [] then {r.settling[0]} else {}
    case _ => {}
  }

  /** The request future is dropped while it claims, or its receiver while a grant is in the channel:
      nothing will ever give the slot back. */
  predicate LosesSlot(r: Row, s: Step)
  {
    (s.ClientGone? && (r.h.Claiming? || (r.h.Waiting? && r.channel.Full?))) || (s.TimeOut? && r.channel.Full?)
  }

  /** A grant that was sent is dropped unread; its ledger entry is never released. */
  predicate LosesGrant(r: Row, s: Step)
  {
    r.channel.Full? && (s.TimeOut? || (s.ClientGone? && r.h.Waiting?))
  }

  function LedgerAdds(r: Row, s: Step): set<LeaseId>
  {
    match s
    case HandlerTrack => if r.h.Tracking? then {r.h.grant.capacity} else {}
    case DispatchTrack => if r.d.Track? then {r.d.grant.capacity} else {}
    case _ => {}
  }

  function LedgerDrops(r: Row, s: Step): set<LeaseId>
  {
    match s
    case SettleLedger => if r.h.Completing? then {r.h.capacity} else {}
    case DropGuard => if r.h.Guarded? && r.h.held.Some? then {r.h.held.value.capacity} else {}
    case UndoLedger => if r.d.Undoing? then {r.d.capacity} else {}
    case _ => {}
  }

  // ------------------------------------------------------------------------------- who owns what

  function HandlerLeases(h: Handler): set<LeaseId>
  {
    match h
    case Claiming(c) => c.Leases()
    case Tracking(g) => g.Leases()
    case Holding(Some(g)) => g.Leases()
    case Guarded(Some(g)) => g.Leases()
    case Completing(rest, _) => (set l | l in rest)
    case _ => {}
  }

  function DispatchLeases(d: Dispatch): set<LeaseId>
  {
    match d
    case Attempt(c) => c.Leases()
    case Track(g) => g.Leases()
    case Sending(g) => g.Leases()
    case Undoing(rest, _) => (set l | l in rest)
    case _ => {}
  }

  function ChannelLeases(c: Channel): set<LeaseId> { if c.Full? then c.grant.Leases() else {} }

  /** Leases that something is still responsible for releasing. */
  function Attended(r: Row): set<LeaseId>
  {
    HandlerLeases(r.h) + DispatchLeases(r.d) + ChannelLeases(r.channel) + (set l | l in r.settling)
  }

  function OwnedLeases(r: Row): set<LeaseId> { Attended(r) + r.orphans }

  function LedgerEntries(r: Row): set<LeaseId>
  {
    (match r.h
     case Holding(Some(g)) => {g.capacity}
     case Guarded(Some(g)) => {g.capacity}
     case Completing(_, c) => {c}
     case _ => {}) +
    (match r.d
     case Sending(g) => {g.capacity}
     case Undoing(_, c) => {c}
     case _ => {}) +
    (if r.channel.Full? then {r.channel.grant.capacity} else {}) + r.lostLedger
  }

  predicate HandlerHoldsSlot(h: Handler)
  {
    h.Claiming? || h.Tracking? || h.Holding? || h.Guarded? || h.Completing? || h.Leaving?
  }

  predicate DispatcherHoldsSlot(d: Dispatch)
  {
    d.Attempt? || d.Track? || d.Sending? || d.Undoing? || d.Vacating?
  }

  /** An attempt under way, a grant in the channel, a live guard, or a slot nobody can give back. */
  predicate HoldsSlot(r: Row)
  {
    HandlerHoldsSlot(r.h) || DispatcherHoldsSlot(r.d) || r.channel.Full? || r.lostSlot
  }

  predicate LiveGuard(r: Row) { r.h.Guarded? || r.h.Completing? || r.h.Leaving? || r.h.Uncounting? }

  // -------------------------------------------------------------------------------- the row invariant

  predicate Ended(h: Handler) { h.TimedOut? || h.Withdrawn? || h.Gone? }

  predicate NoRepeats(s: seq<LeaseId>) { forall i, j :: 0 <= i < j < |s| ==> s[i] != s[j] }

  predicate NeverQueued(r: Row) { r.d.Idle? && !r.queued && !r.pending && r.grants == 0 && !r.lostSlot && r.channel.Unopened? }

  predicate Delivered(r: Row) { r.d.Idle? && !r.queued && !r.pending && r.grants == 1 }

  predicate Dropped(r: Row) { r.channel.Closed? && r.d.Idle? && !r.queued && !r.pending && r.grants == 0 }

  /** Where the handler and the dispatcher can be at the same time. */
  predicate Phases(r: Row)
  {
    && (r.h.Arrived? || r.h.Claiming? || r.h.Tracking? || r.h.Unadmitted? ==> NeverQueued(r))
    && (r.h.Holding? || r.h.Guarded? || r.h.Completing? || r.h.Leaving? || r.h.Uncounting? ==>
          !r.lostSlot && (NeverQueued(r) || (Delivered(r) && r.channel.Closed?)))
    && (r.h.Enqueued? ==> r.channel.Open? && !r.pending && (r.d.Idle? || r.d.Popped?) && r.grants == 0 && !r.lostSlot)
    && (r.h.Waiting? ==> (r.channel.Open? || r.channel.Full? || Dropped(r)) && !r.lostSlot)
    && (Ended(r.h) ==> !r.channel.Full? && !r.channel.Open?)
    && (r.d != Idle ==> r.h.Enqueued? || r.h.Waiting? || Ended(r.h))
    && (r.d != Idle && r.d != Reinsert ==> !r.queued)
    && (r.d != Idle && r.d != Popped ==> !r.pending)
    && (r.channel.Full? ==> r.h.Waiting? && Delivered(r))
    && (r.grants > 0 || r.lostSlot ==> r.d.Idle? && !r.queued && r.grants <= 1)
    && (r.channel.Open? ==> r.grants == 0 && !r.lostSlot)
    && (r.h.Waiting? && r.channel.Open? && (r.d.Idle? || r.d.Popped?) ==> r.pending)
    && (r.d.Undoing? || r.d.Vacating? ==> !r.channel.Open?)
  }

  /** No lease is listed twice, and settling in the background starts only after the dispatcher is done. */
  predicate Shape(r: Row)
  {
    && (r.h.Claiming? ==> r.h.claim.Distinct())
    && (r.h.Tracking? ==> r.h.grant.Distinct())
    && ((r.h.Holding? || r.h.Guarded?) && r.h.held.Some? ==> r.h.held.value.Distinct())
    && (r.h.Completing? ==> NoRepeats(r.h.rest))
    && (r.d.Attempt? ==> r.d.claim.Distinct())
    && (r.d.Track? || r.d.Sending? ==> r.d.grant.Distinct())
    && (r.d.Undoing? ==> NoRepeats(r.d.rest))
    && (r.channel.Full? ==> r.channel.grant.Distinct())
    && NoRepeats(r.settling)
    && (r.settling != [] ==> r.h.Leaving? || r.h.Uncounting? || (r.h.Gone? && r.d.Idle? && !r.queued && !r.pending && !r.channel.Full?))
  }

  predicate LeasesApart(r: Row) { Shape(r) && Attended(r) !! r.orphans }

  /** Ledger entries given up for good are of grants that were lost, so nothing else can hold one. */
  predicate LedgerApart(r: Row)
  {
    && (r.lostLedger != {} ==> r.lostSlot)
    && r.lostLedger <= r.orphans
  }

  predicate RowOk(r: Row) { Phases(r) && LeasesApart(r) && LedgerApart(r) }
}
