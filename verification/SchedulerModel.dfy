/** The scheduler as a flat list: every waiting request in arrival order, plus one service credit
    per (class, tenant, application) key that has a waiting request. All that the scheduler
    promises is stated about this list; `Scheduler` keeps the two-level structure that the
    running system keeps and is proved to follow it. */
module SchedulerModel {
  import opened Sums

  type RequestId = nat

  const U64_MAX: nat := 0xFFFF_FFFF_FFFF_FFFF
  const OVERDUE_BOOST := 1000000.0
  const MAX_DEADLINE_BOOST := 100000.0

  datatype ServiceClass = Realtime | Interactive | Standard | Workflow | Batch

  datatype QueueKey = QueueKey(serviceClass: ServiceClass, tenant: string, app: string)

  datatype Request = Request(id: RequestId, effectiveClass: ServiceClass, tenant: string,
                             application: string, units: real, deadline: nat)
  {
    function Key(): QueueKey { QueueKey(effectiveClass, tenant, application) }

    /** What serving the request costs its queue, before division by the weight. */
    function Work(): real { Max(units, 1.0) }
  }

  datatype Queued = Queued(request: Request, enqueuedNs: nat, deadlineNs: nat, bodyBytes: nat,
                           sequence: nat)
  {
    function Key(): QueueKey { request.Key() }
  }

  datatype Config = Config(maxDepth: nat, maxBytes: nat, agingHalfLife: nat, deadlineWindow: nat,
                           quantum: real)
  {
    ghost predicate Valid() { quantum > 0.0 }
    function AgingNs(): real { if agingHalfLife == 0 then 1.0 else agingHalfLife as real }
    function WindowNs(): real { if deadlineWindow == 0 then 1.0 else deadlineWindow as real }
  }

  datatype Credit = Credit(served: real, weight: real)
  {
    ghost predicate Valid() { served >= 0.0 && weight >= 1.0 }
  }

  datatype SchedulerError = DepthLimit | ByteLimit | Duplicate(id: RequestId)

  datatype Flat = Flat(waiting: seq<Queued>, credit: map<QueueKey, Credit>, sequence: nat)

  const EMPTY := Flat([], map[], 0)

  function SaturatingSub(x: nat, y: nat): nat { if x >= y then x - y else 0 }
  function SaturatingAdd(x: nat, y: nat): nat { if x + y > U64_MAX then U64_MAX else x + y }

  // ---------------------------------------------------------------- the score of a front request

  function Fair(config: Config, credit: Credit): real
    requires config.Valid() && credit.Valid()
  {
    credit.weight * config.quantum / (credit.served + config.quantum)
  }

  function DeadlineBoost(config: Config, front: Queued, now: nat): real
  {
    if now >= front.deadlineNs then OVERDUE_BOOST
    else Min(config.WindowNs() / Max(SaturatingSub(front.deadlineNs, now) as real, 1.0), MAX_DEADLINE_BOOST)
  }

  function Age(config: Config, front: Queued, now: nat): real
  {
    SaturatingSub(now, front.enqueuedNs) as real / config.AgingNs()
  }

  function Score(config: Config, credit: Credit, front: Queued, now: nat): real
    requires config.Valid() && credit.Valid()
  {
    Fair(config, credit) + Age(config, front, now) + DeadlineBoost(config, front, now)
  }

  /** The fairness term never exceeds the weight and never vanishes; the deadline term is positive
      and bounded. */
  lemma ScoreBounds(config: Config, credit: Credit, front: Queued, now: nat)
    requires config.Valid() && credit.Valid()
    ensures 0.0 < Fair(config, credit) <= credit.weight
    ensures 0.0 < DeadlineBoost(config, front, now) <= 1000000.0
  {
    var w, q, s := credit.weight, config.quantum, credit.served;
    QuotientBounds(w * q, s + q, w);
    if now < front.deadlineNs {
      var window, remaining := config.WindowNs(), Max((front.deadlineNs - now) as real, 1.0);
      assert window * (remaining - 1.0) >= 0.0;
      QuotientBounds(window, remaining, window);
    }
  }

  lemma QuotientBounds(num: real, den: real, bound: real)
    requires num > 0.0 && den > 0.0 && num <= bound * den
    ensures 0.0 < num / den <= bound
  {
    assert num / den * den == num;
  }

  /** The order in which two fronts are preferred: greater score, then lower sequence number. */
  predicate Preferred(score: real, sequence: nat, score': real, sequence': nat)
  {
    score > score' || (score == score' && sequence < sequence')
  }

  // -------------------------------------------------------------------------------- the flat list

  predicate IsHead(w: seq<Queued>, i: int)
  {
    0 <= i < |w| && forall j :: 0 <= j < i ==> w[j].Key() != w[i].Key()
  }

  ghost function KeySet(w: seq<Queued>): set<QueueKey> { set i | 0 <= i < |w| :: w[i].Key() }

  ghost function Ids(w: seq<Queued>): set<RequestId> { set i | 0 <= i < |w| :: w[i].request.id }

  function SumBytes(w: seq<Queued>): nat
  {
    if w == [] then 0 else SumBytes(w[..|w| - 1]) + w[|w| - 1].bodyBytes
  }

  function Remove(w: seq<Queued>, i: nat): seq<Queued>
    requires i < |w|
  {
    w[..i] + w[i + 1..]
  }

  ghost predicate SequencesIncrease(w: seq<Queued>)
  {
    forall i, j :: 0 <= i < j < |w| ==> w[i].sequence < w[j].sequence
  }

  ghost predicate IdsDistinct(w: seq<Queued>)
  {
    forall i, j :: 0 <= i < j < |w| ==> w[i].request.id != w[j].request.id
  }

  ghost predicate WellFormed(f: Flat)
  {
    && f.credit.Keys == KeySet(f.waiting)
    && (forall k :: k in f.credit ==> f.credit[k].Valid())
    && SequencesIncrease(f.waiting)
    && (forall i :: 0 <= i < |f.waiting| ==> f.waiting[i].sequence <= f.sequence)
    && IdsDistinct(f.waiting)
  }

  lemma KeyHasCredit(f: Flat, i: nat)
    requires WellFormed(f) && i < |f.waiting|
    ensures f.waiting[i].Key() in f.credit && f.credit[f.waiting[i].Key()].Valid()
  {
    assert f.waiting[i].Key() in KeySet(f.waiting);
  }

  ghost function ScoreAt(config: Config, f: Flat, now: nat, i: nat): real
    requires config.Valid() && WellFormed(f) && i < |f.waiting|
  {
    KeyHasCredit(f, i);
    Score(config, f.credit[f.waiting[i].Key()], f.waiting[i], now)
  }

  ghost predicate Beats(config: Config, f: Flat, now: nat, i: nat, j: nat)
    requires config.Valid() && WellFormed(f) && i < |f.waiting| && j < |f.waiting|
  {
    Preferred(ScoreAt(config, f, now, i), f.waiting[i].sequence, ScoreAt(config, f, now, j), f.waiting[j].sequence)
  }

  /** Request `i` is the earliest of its key and beats the earliest request of every other key. */
  ghost predicate Selected(config: Config, f: Flat, now: nat, i: int)
    requires config.Valid() && WellFormed(f)
  {
    && IsHead(f.waiting, i)
    && forall j {:trigger IsHead(f.waiting, j)} :: IsHead(f.waiting, j) && j != i ==> Beats(config, f, now, i, j)
  }

  lemma {:induction false} BestAmong(config: Config, f: Flat, now: nat, n: nat) returns (i: nat)
    requires config.Valid() && WellFormed(f) && 1 <= n <= |f.waiting|
    ensures i < n && IsHead(f.waiting, i)
    ensures forall j {:trigger IsHead(f.waiting, j)} ::
              IsHead(f.waiting, j) && j < n && j != i ==> Beats(config, f, now, i, j)
  {
    if n == 1 {
      i := 0;
    } else {
      i := BestAmong(config, f, now, n - 1);
      if IsHead(f.waiting, n - 1) && Beats(config, f, now, n - 1, i) {
        i := n - 1;
      }
    }
  }

  /** Some waiting request is selected whenever one waits, and never two. */
  lemma SelectedExists(config: Config, f: Flat, now: nat)
    requires config.Valid() && WellFormed(f) && f.waiting != []
    ensures exists i :: Selected(config, f, now, i)
  {
    var i := BestAmong(config, f, now, |f.waiting|);
    assert Selected(config, f, now, i);
  }

  lemma SelectedUnique(config: Config, f: Flat, now: nat, i: int, j: int)
    requires config.Valid() && WellFormed(f)
    requires Selected(config, f, now, i) && Selected(config, f, now, j)
    ensures i == j
  {
    assert IsHead(f.waiting, i) && IsHead(f.waiting, j);
  }

  ghost function Choice(config: Config, f: Flat, now: nat): (i: nat)
    requires config.Valid() && WellFormed(f) && f.waiting != []
    ensures Selected(config, f, now, i)
  {
    SelectedExists(config, f, now);
    var i :| Selected(config, f, now, i);
    i
  }

  // ------------------------------------------------------------------------------ renormalisation

  predicate IsMinServed(credit: map<QueueKey, Credit>, m: real)
  {
    && (forall k :: k in credit ==> m <= credit[k].served)
    && exists k :: k in credit && credit[k].served == m
  }

  ghost function MinServed(credit: map<QueueKey, Credit>): (m: real)
    requires credit != map[]
    ensures IsMinServed(credit, m)
    decreases |credit|
  {
    var k :| k in credit;
    var rest := credit - {k};
    assert rest.Keys == credit.Keys - {k};
    if rest == map[] then
      assert forall j :: j in credit ==> j == k by { assert forall j :: j in credit && j != k ==> j in rest; }
      credit[k].served
    else
      assert |rest.Keys| < |credit.Keys|;
      var m := MinServed(rest);
      assert forall j :: j in credit ==> j == k || j in rest;
      Min(credit[k].served, m)
  }

  /** Once every queue has been served more than a thousand quanta, the least amount is taken off
      all of them. */
  ghost function Renormalise(config: Config, credit: map<QueueKey, Credit>): map<QueueKey, Credit>
    requires credit != map[]
  {
    var m := MinServed(credit);
    if m > config.quantum * 1000.0 then
      map k | k in credit :: credit[k].(served := credit[k].served - m)
    else
      credit
  }

  // ------------------------------------------------------------------------------- the operations

  function Weight(classWeight: nat, tenantWeight: nat, appWeight: nat): (w: real)
    ensures w >= 1.0
  {
    var c, t, a := if classWeight == 0 then 1 else classWeight, if tenantWeight == 0 then 1 else tenantWeight,
                   if appWeight == 0 then 1 else appWeight;
    assert c * t >= 1 && c * t * a >= 1;
    (c * t * a) as real
  }

  ghost function EnqueueError(config: Config, f: Flat, request: Request, bodyBytes: nat): Option<SchedulerError>
  {
    if |f.waiting| >= config.maxDepth then Some(DepthLimit)
    else if SumBytes(f.waiting) + bodyBytes > config.maxBytes then Some(ByteLimit)
    else if request.id in Ids(f.waiting) then Some(Duplicate(request.id))
    else None
  }

  function Entry(f: Flat, request: Request, bodyBytes: nat, now: nat): Queued
  {
    Queued(request, now, SaturatingAdd(now, request.deadline), bodyBytes, f.sequence + 1)
  }

  ghost function Enqueued(f: Flat, request: Request, bodyBytes: nat, weight: real, now: nat): Flat
  {
    var k := request.Key();
    Flat(f.waiting + [Entry(f, request, bodyBytes, now)],
         if k in f.credit then f.credit else f.credit[k := Credit(0.0, weight)],
         f.sequence + 1)
  }

  /** Removing an entry forgets its key's credit when it was the last entry of that key. */
  ghost function Forget(credit: map<QueueKey, Credit>, w: seq<Queued>, k: QueueKey): map<QueueKey, Credit>
  {
    if k in KeySet(w) then credit else credit - {k}
  }

  ghost function Without(f: Flat, i: nat): Flat
    requires i < |f.waiting|
  {
    var w := Remove(f.waiting, i);
    f.(waiting := w, credit := Forget(f.credit, w, f.waiting[i].Key()))
  }

  ghost function Cancelled(f: Flat, id: RequestId): Flat
  {
    if id in Ids(f.waiting) then
      var i :| 0 <= i < |f.waiting| && f.waiting[i].request.id == id;
      Without(f, i)
    else f
  }

  function Charge(credit: Credit, work: real): Credit
  {
    credit.(served := credit.served + work / Max(credit.weight, 1.0))
  }

  ghost function Charged(config: Config, f: Flat, i: nat): Flat
    requires WellFormed(f) && i < |f.waiting|
  {
    KeyHasCredit(f, i);
    var k := f.waiting[i].Key();
    var credit := f.credit[k := Charge(f.credit[k], f.waiting[i].request.Work())];
    assert k in credit;
    f.(credit := Renormalise(config, credit))
  }

  ghost function Popped(config: Config, f: Flat, i: nat): Flat
    requires WellFormed(f) && i < |f.waiting|
  {
    Without(Charged(config, f, i), i)
  }

  datatype Event =
    | Enqueue(request: Request, bodyBytes: nat, classWeight: nat, tenantWeight: nat, appWeight: nat, now: nat)
    | Cancel(id: RequestId)
    | Pop(now: nat)

  ghost function Next(config: Config, f: Flat, e: Event): (f': Flat)
    requires config.Valid() && WellFormed(f)
    ensures WellFormed(f')
  {
    match e
    case Enqueue(request, bodyBytes, cw, tw, aw, now) =>
      if EnqueueError(config, f, request, bodyBytes).Some? then f
      else
        EnqueuedWellFormed(f, request, bodyBytes, Weight(cw, tw, aw), now);
        Enqueued(f, request, bodyBytes, Weight(cw, tw, aw), now)
    case Cancel(id) =>
      CancelledWellFormed(f, id);
      Cancelled(f, id)
    case Pop(now) =>
      if f.waiting == [] then f
      else
        var i := Choice(config, f, now);
        ChargedWellFormed(config, f, i);
        WithoutWellFormed(Charged(config, f, i), i);
        Popped(config, f, i)
  }

  // --------------------------------------------------------- every operation keeps the list in order

  lemma KeySetAppend(w: seq<Queued>, q: Queued)
    ensures KeySet(w + [q]) == KeySet(w) + {q.Key()}
    ensures Ids(w + [q]) == Ids(w) + {q.request.id}
  {
    var w' := w + [q];
    assert forall i :: 0 <= i < |w| ==> w'[i] == w[i];
    assert w'[|w|] == q;
    forall k | k in KeySet(w) + {q.Key()} ensures k in KeySet(w') {
      if k in KeySet(w) {
        var i :| 0 <= i < |w| && w[i].Key() == k;
        assert w'[i].Key() == k;
      }
    }
    forall d | d in Ids(w) + {q.request.id} ensures d in Ids(w') {
      if d in Ids(w) {
        var i :| 0 <= i < |w| && w[i].request.id == d;
        assert w'[i].request.id == d;
      }
    }
  }

  lemma EnqueuedWellFormed(f: Flat, request: Request, bodyBytes: nat, weight: real, now: nat)
    requires WellFormed(f) && weight >= 1.0 && request.id !in Ids(f.waiting)
    ensures WellFormed(Enqueued(f, request, bodyBytes, weight, now))
  {
    hide KeySet;
    KeySetAppend(f.waiting, Entry(f, request, bodyBytes, now));
    assert forall i :: 0 <= i < |f.waiting| ==> f.waiting[i].request.id in Ids(f.waiting);
  }

  lemma RemoveAt(w: seq<Queued>, i: nat)
    requires i < |w|
    ensures |Remove(w, i)| == |w| - 1
    ensures forall j :: 0 <= j < i ==> Remove(w, i)[j] == w[j]
    ensures forall j :: i <= j < |w| - 1 ==> Remove(w, i)[j] == w[j + 1]
    ensures forall j :: 0 <= j < i ==> w[j] == Remove(w, i)[j]
    ensures forall j :: i < j < |w| ==> w[j] == Remove(w, i)[j - 1]
  {
  }

  lemma KeySetRemove(w: seq<Queued>, i: nat)
    requires i < |w|
    ensures KeySet(Remove(w, i)) <= KeySet(w) <= KeySet(Remove(w, i)) + {w[i].Key()}
  {
    RemoveAt(w, i);
    var w' := Remove(w, i);
    forall j | 0 <= j < |w'| ensures w'[j].Key() in KeySet(w) {
      assert w'[j] == w[if j < i then j else j + 1];
    }
    forall j | 0 <= j < |w| && j != i ensures w[j].Key() in KeySet(w') {
      assert w[j] == w'[if j < i then j else j - 1];
    }
  }

  lemma IdsRemove(w: seq<Queued>, i: nat)
    requires i < |w| && IdsDistinct(w)
    ensures Ids(Remove(w, i)) == Ids(w) - {w[i].request.id}
  {
    RemoveAt(w, i);
    var w' := Remove(w, i);
    forall j | 0 <= j < |w'| ensures w'[j].request.id in Ids(w) - {w[i].request.id} {
      assert w'[j] == w[if j < i then j else j + 1];
    }
    forall j | 0 <= j < |w| && j != i ensures w[j].request.id in Ids(w') {
      assert w[j] == w'[if j < i then j else j - 1];
    }
  }

  lemma WithoutWellFormed(f: Flat, i: nat)
    requires WellFormed(f) && i < |f.waiting|
    ensures WellFormed(Without(f, i))
  {
    hide KeySet;
    RemoveAt(f.waiting, i);
    KeySetRemove(f.waiting, i);
  }

  lemma CancelledWellFormed(f: Flat, id: RequestId)
    requires WellFormed(f)
    ensures WellFormed(Cancelled(f, id))
  {
    if id in Ids(f.waiting) {
      var i :| 0 <= i < |f.waiting| && f.waiting[i].request.id == id && Cancelled(f, id) == Without(f, i);
      WithoutWellFormed(f, i);
    }
  }

  /** Charging and renormalising keeps every served amount non-negative and every weight. */
  lemma ChargedWellFormed(config: Config, f: Flat, i: nat)
    requires config.Valid() && WellFormed(f) && i < |f.waiting|
    ensures WellFormed(Charged(config, f, i))
    ensures Charged(config, f, i).waiting == f.waiting && Charged(config, f, i).sequence == f.sequence
    ensures forall k :: k in f.credit ==> Charged(config, f, i).credit[k].weight == f.credit[k].weight
  {
    KeyHasCredit(f, i);
    var k := f.waiting[i].Key();
    var c := f.credit[k];
    QuotientBounds(f.waiting[i].request.Work(), Max(c.weight, 1.0), f.waiting[i].request.Work());
    assert f.credit[k := Charge(c, f.waiting[i].request.Work())].Keys == f.credit.Keys;
    assert Charged(config, f, i).credit.Keys == f.credit.Keys;
  }
}
