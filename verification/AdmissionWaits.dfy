/** Requests that wait in the queue: which of them are never woken, and which entries of `pending` are never
    taken out. */
module AdmissionWaits {
  import opened Sums
  import opened Concurrency
  import opened AdmissionRow
  import opened AdmissionSteps
  import opened AdmissionRuns

  // ------------------------------------------------------------------------------ one request

  /** How far a handler has come; it never goes back. */
  function Stage(h: Handler): nat
  {
    match h
    case Arrived => 0
    case Claiming(_) => 1
    case Unadmitted => 2
    case Enqueued => 3
    case Waiting => 4
    case Tracking(_) => 5
    case Holding(_) => 5
    case TimedOut => 5
    case Withdrawn => 6
    case Guarded(_) => 6
    case Completing(_, _) => 7
    case Leaving => 8
    case Uncounting => 9
    case Gone => 10
  }

  lemma HandlerStage(r: Row, s: Step)
    requires !ByDispatcher(s) && !ByGuard(s) && HandlerMoved(r, s).Some?
    ensures Stage(r.h) <= Stage(HandlerMoved(r, s).value.h)
    ensures s.BuildGuard? ==> Stage(r.h) < Stage(Guarded(None)) <= Stage(HandlerMoved(r, s).value.h)
  {
    hide ClaimNext;
  }

  lemma GuardStage(r: Row, s: Step)
    requires GuardMoved(r, s).Some?
    ensures Stage(r.h) <= Stage(GuardMoved(r, s).value.h)
  {
  }

  lemma DispatchKeepsHandler(r: Row, s: Step)
    requires DispatchMoved(r, s).Some?
    ensures DispatchMoved(r, s).value.h == r.h
  {
    hide ClaimNext;
  }

  lemma StageNeverFalls(r: Row, s: Step)
    requires Moved(r, s).Some?
    ensures Stage(r.h) <= Stage(Moved(r, s).value.h)
    ensures s.BuildGuard? ==> Stage(r.h) < Stage(Guarded(None)) <= Stage(Moved(r, s).value.h)
  {
    hide HandlerMoved, GuardMoved, DispatchMoved, Stage;
    if ByDispatcher(s) {
      DispatchKeepsHandler(r, s);
    } else if ByGuard(s) {
      GuardStage(r, s);
    } else {
      HandlerStage(r, s);
    }
  }

  /** Enqueued or waiting with an open channel. */
  predicate Listens(r: Row) { (r.h.Enqueued? || r.h.Waiting?) && r.channel.Open? }

  /** Such a request, neither in the queue nor with a dispatcher that could still serve it. */
  predicate Lost(r: Row) { Listens(r) && !r.queued && (r.d.Idle? || r.d.Reinsert?) }

  /** The dispatcher looks for the pending entry before the handler has filed it, or its own enqueue of the
      request is refused, which it ignores. */
  predicate Misses(r: Row, s: Step) { (s.TakePending? && r.h.Enqueued?) || (s.Requeue? && !s.accepted) }

  lemma LostByDispatcher(r: Row, s: Step)
    requires Phases(r) && ByDispatcher(s) && DispatchMoved(r, s).Some? && Stage(r.h) <= Stage(Waiting)
    ensures Lost(DispatchMoved(r, s).value) <==> Lost(r) || Misses(r, s)
  {
    hide ClaimNext;
  }

  lemma LostByHandler(r: Row, s: Step)
    requires Phases(r) && !ByDispatcher(s) && !ByGuard(s) && HandlerMoved(r, s).Some? && Stage(HandlerMoved(r, s).value.h) <= Stage(Waiting)
    ensures Lost(HandlerMoved(r, s).value) <==> Lost(r)
  {
    hide ClaimNext;
  }

  lemma LostByGuard(r: Row, s: Step)
    requires GuardMoved(r, s).Some? && Stage(GuardMoved(r, s).value.h) <= Stage(Waiting)
    ensures Lost(GuardMoved(r, s).value) <==> Lost(r)
  {
  }

  lemma LostOnlyByMissing(r: Row, s: Step)
    requires Phases(r) && Moved(r, s).Some? && Stage(Moved(r, s).value.h) <= Stage(Waiting)
    ensures Lost(Moved(r, s).value) <==> Lost(r) || Misses(r, s)
  {
    hide HandlerMoved, GuardMoved, DispatchMoved, Stage, Phases, Lost;
    if ByDispatcher(s) {
      DispatchKeepsHandler(r, s);
      LostByDispatcher(r, s);
    } else if ByGuard(s) {
      LostByGuard(r, s);
    } else {
      LostByHandler(r, s);
    }
  }

  lemma ListensByHandler(r: Row, s: Step)
    requires Phases(r) && HandlerMoved(r, s).Some? && Stage(HandlerMoved(r, s).value.h) <= Stage(Waiting)
    ensures Listens(HandlerMoved(r, s).value) <==> Listens(r) || s.Enqueue?
  {
    hide ClaimNext;
  }

  lemma ListensByGuard(r: Row, s: Step)
    requires ByGuard(s) && GuardMoved(r, s).Some? && Stage(GuardMoved(r, s).value.h) <= Stage(Waiting)
    ensures Listens(GuardMoved(r, s).value) <==> Listens(r)
  {
  }

  /** With no dispatcher at work, a request comes to listen only by enqueueing. */
  lemma ListensByEnqueue(r: Row, s: Step)
    requires Phases(r) && r.d.Idle? && !s.Pop? && Moved(r, s).Some? && Stage(Moved(r, s).value.h) <= Stage(Waiting)
    ensures Listens(Moved(r, s).value) <==> Listens(r) || s.Enqueue?
    ensures !Misses(r, s)
  {
    hide HandlerMoved, GuardMoved, DispatchMoved, Stage, Phases, Listens;
    IdleUnlessPopped(r, s);
    if ByGuard(s) {
      ListensByGuard(r, s);
    } else {
      ListensByHandler(r, s);
    }
  }

  /** Waiting for nothing, or ended after that. */
  predicate Forsaken(r: Row)
  {
    && ((r.h.Waiting? && r.channel.Open?) || (Ended(r.h) && r.channel.Closed?))
    && (r.d.Idle? || r.d.Reinsert?) && r.grants == 0 && !r.lostSlot
  }

  lemma ForsakenByHandler(r: Row, s: Step)
    requires Forsaken(r) && !ByDispatcher(s) && !ByGuard(s) && HandlerMoved(r, s).Some?
    ensures Forsaken(HandlerMoved(r, s).value) && (HandlerMoved(r, s).value.queued ==> r.queued)
  {
    hide ClaimNext;
  }

  lemma ForsakenByDispatcher(r: Row, s: Step)
    requires Forsaken(r) && !(s.Pop? && r.queued) && DispatchMoved(r, s).Some?
    ensures Forsaken(DispatchMoved(r, s).value) && (DispatchMoved(r, s).value.queued ==> r.queued)
  {
    hide ClaimNext;
  }

  lemma ForsakenByGuard(r: Row, s: Step)
    requires Forsaken(r) && GuardMoved(r, s).Some?
    ensures Forsaken(GuardMoved(r, s).value) && (GuardMoved(r, s).value.queued ==> r.queued)
  {
  }

  lemma ForsakenStays(r: Row, s: Step)
    requires Forsaken(r) && !(s.Pop? && r.queued) && Moved(r, s).Some?
    ensures Forsaken(Moved(r, s).value) && (Moved(r, s).value.queued ==> r.queued)
  {
    hide HandlerMoved, GuardMoved, DispatchMoved, Forsaken;
    if ByDispatcher(s) {
      ForsakenByDispatcher(r, s);
    } else if ByGuard(s) {
      ForsakenByGuard(r, s);
    } else {
      ForsakenByHandler(r, s);
    }
  }

  // ------------------------------------------------------------------------------ every run

  /** What an event does to one request, if it is there. */
  lemma RowNext(w: World, e: Event, id: RowId)
    requires Enabled(w, e) && id in w.rows
    ensures id in Next(w, e).rows
    ensures if e.Act? && e.id == id then Moved(w.rows[id], e.step) == Some(Next(w, e).rows[id]) else Next(w, e).rows[id] == w.rows[id]
  {
    hide Moved, HasRoom, Stores, Deletes, LedgerAdds, LedgerDrops, SlotEffect, ActiveEffect, Counted;
  }

  lemma RowOfInv(w: World, id: RowId)
    requires Inv(w) && id in w.rows
    ensures Phases(w.rows[id]) && RowOk(w.rows[id])
  {
    hide SlotsCounted, Phases, LeasesApart, LedgerApart;
  }

  lemma {:induction false} StageOverRun(w: World, es: seq<Event>, id: RowId)
    requires Legal(w, es) && id in w.rows
    ensures id in Run(w, es).rows && Stage(w.rows[id].h) <= Stage(Run(w, es).rows[id].h)
    decreases |es|
  {
    hide Enabled, Next, Stage;
    if es != [] {
      var e := es[0];
      RowNext(w, e, id);
      if e.Act? && e.id == id { StageNeverFalls(w.rows[id], e.step); }
      StageOverRun(Next(w, e), es[1..], id);
    }
  }

  /** A request that nothing will ever pop: it is out of the queue, or the dispatcher has stopped. */
  ghost predicate LostIn(w: World, id: RowId) { id in w.rows && (Lost(w.rows[id]) || (w.stopped && Listens(w.rows[id]))) }

  ghost predicate StrandedIn(w: World, id: RowId) { LostIn(w, id) && w.rows[id].h.Waiting? }

  /** The dispatcher misses the request, has stopped when it enqueues, or stops before its entry is filed. */
  ghost predicate Strands(w: World, e: Event, id: RowId)
    requires Enabled(w, e)
  {
    || (e.Act? && e.id == id && (Misses(w.rows[id], e.step) || (w.stopped && e.step.Enqueue?)))
    || (e.Stop? && id in w.rows && w.rows[id].h.Enqueued?)
  }

  ghost predicate StrandedBy(w: World, es: seq<Event>, id: RowId)
    requires Legal(w, es)
    decreases |es|
  {
    es != [] && (Strands(w, es[0], id) || StrandedBy(Next(w, es[0]), es[1..], id))
  }

  lemma LostByStop(w: World, id: RowId)
    requires Inv(w) && Enabled(w, Stop) && id in w.rows
    ensures Listens(w.rows[id]) <==> w.rows[id].h.Enqueued?
    ensures !Lost(w.rows[id]) || w.rows[id].h.Enqueued?
  {
    RowOfInv(w, id);
  }

  lemma LostByAct(w: World, e: Event, id: RowId)
    requires Inv(w) && Enabled(w, e) && e.Act? && e.id == id && id in Next(w, e).rows && Stage(Next(w, e).rows[id].h) <= Stage(Waiting)
    ensures LostIn(Next(w, e), id) <==> LostIn(w, id) || Strands(w, e, id)
  {
    RowNext(w, e, id);
    RowOfInv(w, id);
    InvParts(w);
    hide Inv, Lost, Listens, Misses, Stage, Moved, Phases, RowOk, HasRoom, Stores, Deletes, LedgerAdds, LedgerDrops, SlotEffect, ActiveEffect,
         Counted, SlotsCounted, LeasesCounted;
    LostOnlyByMissing(w.rows[id], e.step);
    if w.stopped {
      ListensByEnqueue(w.rows[id], e.step);
      LostListens(w.rows[id]);
      LostListens(Next(w, e).rows[id]);
    }
  }

  lemma LostListens(r: Row)
    ensures Lost(r) ==> Listens(r)
  {
  }

  lemma LostStep(w: World, e: Event, id: RowId)
    requires Inv(w) && Enabled(w, e) && id in Next(w, e).rows && Stage(Next(w, e).rows[id].h) <= Stage(Waiting)
    ensures LostIn(Next(w, e), id) <==> LostIn(w, id) || Strands(w, e, id)
  {
    hide Inv, Lost, Listens, Misses, Stage, Moved, Phases, RowOk, HasRoom, Stores, Deletes, LedgerAdds, LedgerDrops, SlotEffect, ActiveEffect, Counted;
    if id !in w.rows {
      NewRowIsNotLost(w, e, id);
    } else if e.Act? && e.id == id {
      LostByAct(w, e, id);
    } else {
      RowNext(w, e, id);
      LostListens(w.rows[id]);
      if e.Stop? { LostByStop(w, id); }
    }
  }

  lemma NewRowIsNotLost(w: World, e: Event, id: RowId)
    requires Enabled(w, e) && id !in w.rows
    ensures !LostIn(Next(w, e), id) && !Strands(w, e, id)
  {
    hide Moved, HasRoom, Stores, Deletes, LedgerAdds, LedgerDrops, SlotEffect, ActiveEffect, Counted;
  }

  lemma {:induction false} LostRun(w: World, es: seq<Event>, id: RowId)
    requires Inv(w) && Legal(w, es) && id in Run(w, es).rows && Stage(Run(w, es).rows[id].h) <= Stage(Waiting)
    ensures LostIn(Run(w, es), id) <==> LostIn(w, id) || StrandedBy(w, es, id)
    decreases |es|
  {
    hide Inv, Enabled, Next, Stage, LostIn, Strands;
    if es != [] {
      var w' := Next(w, es[0]);
      InvStep(w, es[0]);
      LostRun(w', es[1..], id);
      if id in w'.rows {
        StageOverRun(w', es[1..], id);
        LostStep(w, es[0], id);
      } else {
        NotThereYet(w, es[0], id);
      }
    }
  }

  lemma NotThereYet(w: World, e: Event, id: RowId)
    requires Enabled(w, e) && id !in Next(w, e).rows
    ensures id !in w.rows && !LostIn(w, id) && !LostIn(Next(w, e), id) && !Strands(w, e, id)
  {
    hide Moved, HasRoom, Stores, Deletes, LedgerAdds, LedgerDrops, SlotEffect, ActiveEffect, Counted, Lost, Listens, Misses;
  }

  /** In every interleaving, a request that waits is stranded if and only if the dispatcher looked for its
      pending entry before it was filed, had an enqueue of it refused, or stopped for draining before it was
      filed. */
  lemma StrandedIffMissed(es: seq<Event>, id: RowId)
    requires Legal(START, es) && id in Run(START, es).rows && Run(START, es).rows[id].h.Waiting?
    ensures StrandedIn(Run(START, es), id) <==> StrandedBy(START, es, id)
  {
    hide Inv, Legal, Run, StrandedBy, Lost;
    StartInv();
    LostRun(START, es, id);
  }

  ghost predicate ForsakenIn(w: World, id: RowId) { id in w.rows && Forsaken(w.rows[id]) && (w.rows[id].queued ==> w.stopped) }

  lemma ForsakenMeans(w: World, id: RowId)
    requires Inv(w) && ForsakenIn(w, id)
    ensures w.rows[id].grants == 0 && !HoldsSlot(w.rows[id]) && (StrandedIn(w, id) || Ended(w.rows[id].h))
  {
    RowOfInv(w, id);
  }

  lemma StrandedIsForsaken(w: World, id: RowId)
    requires Inv(w) && StrandedIn(w, id)
    ensures ForsakenIn(w, id)
  {
    RowOfInv(w, id);
    InvParts(w);
    hide Inv, SlotsCounted, LeasesCounted;
  }

  lemma ForsakenStep(w: World, e: Event, id: RowId)
    requires Inv(w) && Enabled(w, e) && ForsakenIn(w, id)
    ensures ForsakenIn(Next(w, e), id)
  {
    hide Inv, Forsaken, Moved, HasRoom, Stores, Deletes, LedgerAdds, LedgerDrops, SlotEffect, ActiveEffect, Counted;
    RowNext(w, e, id);
    if e.Act? && e.id == id { ForsakenStays(w.rows[id], e.step); }
  }

  lemma {:induction false} StrandedForEver(w: World, es: seq<Event>, id: RowId)
    requires Inv(w) && Legal(w, es) && ForsakenIn(w, id)
    ensures Inv(Run(w, es)) && ForsakenIn(Run(w, es), id)
    decreases |es|
  {
    hide Inv, Enabled, Next, ForsakenIn;
    if es != [] {
      InvStep(w, es[0]);
      ForsakenStep(w, es[0], id);
      StrandedForEver(Next(w, es[0]), es[1..], id);
    }
  }

  /** A stranded request is never granted and never holds a slot, however the run goes on; it waits until its
      deadline or its client ends the wait. */
  lemma StrandedUntilItLeaves(es: seq<Event>, more: seq<Event>, id: RowId)
    requires Legal(START, es) && StrandedIn(Run(START, es), id) && Legal(Run(START, es), more)
    ensures
      var w := Run(Run(START, es), more);
      id in w.rows && w.rows[id].grants == 0 && !HoldsSlot(w.rows[id]) && (StrandedIn(w, id) || Ended(w.rows[id].h))
  {
    hide Inv, Legal, Run, HoldsSlot, StrandedIn;
    AccountingIsExact(es);
    StrandedIsForsaken(Run(START, es), id);
    StrandedForEver(Run(START, es), more, id);
    ForsakenMeans(Run(Run(START, es), more), id);
  }

  // --------------------------------------------------------------- entries that stay in `pending` for ever

  /** An entry of `pending` whose handler is gone and that nothing will pop. */
  predicate Stuck(r: Row, stopped: bool) { r.h.Gone? && r.d.Idle? && (!r.queued || stopped) && r.pending }

  /** The client of a stranded request goes away, or the dispatcher files the entry of a request whose handler
      is gone and that is not queued: its enqueue was refused, or the handler's cancel came right after it. */
  predicate LeavesEntry(r: Row, s: Step, stopped: bool)
  {
    || (s.ClientGone? && r.h.Waiting? && r.channel.Open? && r.d.Idle? && (!r.queued || stopped))
    || (s.ReinsertPending? && r.h.Gone? && !r.queued)
  }

  lemma StuckByHandler(r: Row, s: Step, stopped: bool)
    requires Phases(r) && !ByDispatcher(s) && !ByGuard(s) && HandlerMoved(r, s).Some?
    ensures Stuck(HandlerMoved(r, s).value, stopped) <==> Stuck(r, stopped) || LeavesEntry(r, s, stopped)
  {
    hide ClaimNext;
  }

  lemma StuckByGuard(r: Row, s: Step, stopped: bool)
    requires Phases(r) && ByGuard(s) && GuardMoved(r, s).Some?
    ensures Stuck(GuardMoved(r, s).value, stopped) <==> Stuck(r, stopped)
  {
  }

  lemma StuckByDispatcher(r: Row, s: Step, stopped: bool)
    requires Phases(r) && ByDispatcher(s) && DispatchMoved(r, s).Some? && (stopped ==> r.d.Idle? && !s.Pop?)
    ensures Stuck(DispatchMoved(r, s).value, stopped) <==> Stuck(r, stopped) || LeavesEntry(r, s, stopped)
  {
    hide ClaimNext;
  }

  lemma StuckOnlyByLeaving(r: Row, s: Step, stopped: bool)
    requires Phases(r) && Moved(r, s).Some? && (stopped ==> r.d.Idle? && !s.Pop?)
    ensures Stuck(Moved(r, s).value, stopped) <==> Stuck(r, stopped) || LeavesEntry(r, s, stopped)
  {
    hide HandlerMoved, GuardMoved, DispatchMoved, Phases, Stuck;
    if ByDispatcher(s) {
      StuckByDispatcher(r, s, stopped);
    } else if ByGuard(s) {
      StuckByGuard(r, s, stopped);
    } else {
      StuckByHandler(r, s, stopped);
    }
  }

  ghost predicate EntryLeftIn(w: World, es: seq<Event>, id: RowId)
    requires Legal(w, es)
    decreases |es|
  {
    es != [] && ((es[0].Act? && es[0].id == id && LeavesEntry(w.rows[id], es[0].step, w.stopped)) || EntryLeftIn(Next(w, es[0]), es[1..], id))
  }

  ghost predicate StuckIn(w: World, id: RowId) { id in w.rows && Stuck(w.rows[id], w.stopped) }

  lemma StuckStep(w: World, e: Event, id: RowId)
    requires Inv(w) && Enabled(w, e)
    ensures StuckIn(Next(w, e), id) <==> StuckIn(w, id) || (e.Act? && e.id == id && LeavesEntry(w.rows[id], e.step, w.stopped))
  {
    InvParts(w);
    hide Inv, LeavesEntry, Moved, Phases, RowOk, HasRoom, Stores, Deletes, LedgerAdds, LedgerDrops, SlotEffect, ActiveEffect, Counted,
         SlotsCounted, LeasesCounted;
    if id in w.rows {
      RowNext(w, e, id);
      RowOfInv(w, id);
      if e.Act? && e.id == id {
        hide Stuck;
        StuckOnlyByLeaving(w.rows[id], e.step, w.stopped);
      }
    }
  }

  lemma {:induction false} StuckRun(w: World, es: seq<Event>, id: RowId)
    requires Inv(w) && Legal(w, es)
    ensures StuckIn(Run(w, es), id) <==> StuckIn(w, id) || EntryLeftIn(w, es, id)
    decreases |es|
  {
    hide Inv, Enabled, Next, StuckIn, LeavesEntry;
    if es != [] {
      InvStep(w, es[0]);
      StuckStep(w, es[0], id);
      StuckRun(Next(w, es[0]), es[1..], id);
    }
  }

  /** The entry is there however the run goes on. */
  ghost predicate StaysPending(w: World, id: RowId)
  {
    forall es :: Legal(w, es) ==> id in Run(w, es).rows && Run(w, es).rows[id].pending
  }

  /** A step towards taking the entry out, and how many more there are. */
  function Towards(r: Row, stopped: bool): Step
  {
    if r.d.Popped? then TakePending
    else if r.queued && !stopped then Pop
    else if r.h.Waiting? then TimeOut
    else if r.h.TimedOut? then CancelQueued
    else RemovePending
  }

  function StepsLeft(r: Row, stopped: bool): nat
  {
    if r.d.Popped? then 1 else if r.queued && !stopped then 2 else if r.h.Waiting? then 5 else if r.h.TimedOut? then 4 else 3
  }

  lemma TowardsTakingOut(r: Row, stopped: bool)
    requires Phases(r) && r.pending && !Stuck(r, stopped)
    ensures Moved(r, Towards(r, stopped)).Some?
    ensures
      var r' := Moved(r, Towards(r, stopped)).value;
      r'.pending ==> !Stuck(r', stopped) && StepsLeft(r', stopped) < StepsLeft(r, stopped)
  {
    hide ClaimNext;
  }

  lemma {:induction false} CanBeTakenOut(w: World, id: RowId) returns (es: seq<Event>)
    requires Inv(w) && id in w.rows && w.rows[id].pending && !Stuck(w.rows[id], w.stopped)
    ensures Legal(w, es) && id in Run(w, es).rows && !Run(w, es).rows[id].pending
    decreases StepsLeft(w.rows[id], w.stopped)
  {
    hide Inv, Phases, RowOk, Moved, Stuck, StepsLeft, HasRoom, Deletes, LedgerAdds, LedgerDrops, SlotEffect, ActiveEffect, Counted;
    var r := w.rows[id];
    var e := Act(id, Towards(r, w.stopped), Limits(map[], map[]), false);
    RowOfInv(w, id);
    TowardsTakingOut(r, w.stopped);
    assert Enabled(w, e);
    InvStep(w, e);
    RowNext(w, e, id);
    var w' := Next(w, e);
    assert w'.stopped == w.stopped;
    hide Enabled, Next;
    if w'.rows[id].pending {
      var rest := CanBeTakenOut(w', id);
      es := [e] + rest;
      assert es[1..] == rest;
    } else {
      es := [e];
      assert es[1..] == [] && Legal(w', []);
    }
  }

  /** In every interleaving, an entry of `pending` is never taken out again if and only if some step left it
      behind: the client went away while stranded, or the dispatcher filed it for a handler that was gone,
      outside of the queue. */
  lemma PendingForEver(es: seq<Event>, id: RowId)
    requires Legal(START, es) && id in Run(START, es).rows && Run(START, es).rows[id].pending
    ensures StaysPending(Run(START, es), id) <==> EntryLeftIn(START, es, id)
  {
    hide Inv, Enabled, Next, Stuck;
    var w := Run(START, es);
    StartInv();
    AccountingIsExact(es);
    StuckRun(START, es, id);
    if StuckIn(w, id) {
      StuckStays(w, id);
    } else {
      var more := CanBeTakenOut(w, id);
    }
  }

  lemma StuckStays(w: World, id: RowId)
    requires Inv(w) && StuckIn(w, id)
    ensures StaysPending(w, id)
  {
    hide Inv, Legal, Run, StuckIn;
    forall more | Legal(w, more) ensures id in Run(w, more).rows && Run(w, more).rows[id].pending {
      StuckRun(w, more, id);
      StuckIsPending(Run(w, more), id);
    }
  }

  lemma StuckIsPending(w: World, id: RowId)
    requires StuckIn(w, id)
    ensures id in w.rows && w.rows[id].pending
  {
  }
}
