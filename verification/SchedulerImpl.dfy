/** The scheduler's own structure: one deque per key in a map, an id index, and depth and byte
    counters, all updated in place. Every operation is proved to do to this structure what
    `SchedulerModel.Next` does to the flat list. */
module SchedulerImpl {
  import opened Sums
  import opened SchedulerModel

  datatype QueueState = QueueState(items: seq<Queued>, credit: Credit)

  datatype QueueSnapshot = QueueSnapshot(depth: nat, bytes: nat, activeQueues: nat)

  // -------------------------------------------------------------------- one queue of the flat list

  function Project(w: seq<Queued>, k: QueueKey): seq<Queued>
  {
    if w == [] then []
    else
      var last := w[|w| - 1];
      Project(w[..|w| - 1], k) + if last.Key() == k then [last] else []
  }

  lemma {:induction false} ProjectConcat(v: seq<Queued>, w: seq<Queued>, k: QueueKey)
    ensures Project(v + w, k) == Project(v, k) + Project(w, k)
  {
    if w == [] {
      assert v + w == v;
    } else {
      ProjectConcat(v, w[..|w| - 1], k);
      assert (v + w)[..|v + w| - 1] == v + w[..|w| - 1];
    }
  }

  lemma ProjectSplit(w: seq<Queued>, i: nat, k: QueueKey)
    requires i < |w|
    ensures Project(w, k) ==
            Project(w[..i], k) + (if w[i].Key() == k then [w[i]] else []) + Project(w[i + 1..], k)
    ensures Project(Remove(w, i), k) == Project(w[..i], k) + Project(w[i + 1..], k)
  {
    assert w == w[..i] + ([w[i]] + w[i + 1..]);
    ProjectConcat(w[..i], [w[i]] + w[i + 1..], k);
    ProjectConcat([w[i]], w[i + 1..], k);
    ProjectConcat(w[..i], w[i + 1..], k);
    assert [w[i]][..0] == [];
  }

  /** An entry of a queue is an entry of the list, and the front of a queue is the list's first
      entry with that key. */
  lemma {:induction false} ProjectIndex(w: seq<Queued>, k: QueueKey, p: nat) returns (i: nat)
    requires p < |Project(w, k)|
    ensures i < |w| && w[i] == Project(w, k)[p] && w[i].Key() == k
    ensures Project(w[..i], k) == Project(w, k)[..p]
    ensures p == 0 ==> IsHead(w, i)
  {
    var front := w[..|w| - 1];
    if p < |Project(front, k)| {
      i := ProjectIndex(front, k, p);
      assert front[..i] == w[..i];
    } else {
      i := |w| - 1;
      if p == 0 {
        forall j | 0 <= j < i ensures w[j].Key() != k {
          if w[j].Key() == k {
            ProjectSplit(front, j, k);
            assert false;
          }
        }
      }
    }
  }

  /** Taking the p-th entry out of a queue takes one entry out of the list and leaves every other
      queue alone. */
  lemma ProjectRemove(w: seq<Queued>, k: QueueKey, p: nat, i: nat)
    requires p < |Project(w, k)| && i < |w| && w[i].Key() == k && Project(w[..i], k) == Project(w, k)[..p]
    ensures Project(Remove(w, i), k) == Project(w, k)[..p] + Project(w, k)[p + 1..]
    ensures forall k' :: k' != k ==> Project(Remove(w, i), k') == Project(w, k')
  {
    ProjectSplit(w, i, k);
    forall k' | k' != k ensures Project(Remove(w, i), k') == Project(w, k') {
      ProjectSplit(w, i, k');
    }
  }

  lemma ProjectKeys(w: seq<Queued>, k: QueueKey)
    ensures Project(w, k) != [] <==> k in KeySet(w)
  {
    if Project(w, k) != [] {
      var i := ProjectIndex(w, k, 0);
    }
    if k in KeySet(w) {
      var i :| 0 <= i < |w| && w[i].Key() == k;
      ProjectSplit(w, i, k);
    }
  }

  lemma {:induction false} SumBytesRemove(w: seq<Queued>, i: nat)
    requires i < |w|
    ensures SumBytes(w) == SumBytes(Remove(w, i)) + w[i].bodyBytes
  {
    var front := w[..|w| - 1];
    if i == |w| - 1 {
      assert Remove(w, i) == front;
    } else {
      SumBytesRemove(front, i);
      assert Remove(w, i)[..|w| - 2] == Remove(front, i);
    }
  }

  // ------------------------------------------------------------------------------------- coherence

  ghost predicate QueuesMatch(queues: map<QueueKey, QueueState>, f: Flat)
  {
    && queues.Keys == f.credit.Keys
    && forall k :: k in queues ==> queues[k].items == Project(f.waiting, k) && queues[k].credit == f.credit[k]
  }

  ghost predicate IndexMatches(index: map<RequestId, QueueKey>, w: seq<Queued>)
  {
    && index.Keys == Ids(w)
    && forall i :: 0 <= i < |w| ==> w[i].request.id in index && index[w[i].request.id] == w[i].Key()
  }

  lemma QueuesMatchRemove(queues: map<QueueKey, QueueState>, f: Flat, k: QueueKey, p: nat, i: nat)
    requires WellFormed(f) && QueuesMatch(queues, f) && k in queues && p < |queues[k].items|
    requires i < |f.waiting| && f.waiting[i].Key() == k && Project(f.waiting[..i], k) == queues[k].items[..p]
    ensures
      var items := queues[k].items[..p] + queues[k].items[p + 1..];
      var after := queues[k := queues[k].(items := items)];
      QueuesMatch(if items == [] then after - {k} else after, Without(f, i))
  {
    hide Project, Remove, KeySet, WellFormed;
    ProjectRemove(f.waiting, k, p, i);
    ProjectKeys(Remove(f.waiting, i), k);
  }

  lemma IndexMatchesRemove(index: map<RequestId, QueueKey>, w: seq<Queued>, i: nat)
    requires IdsDistinct(w) && IndexMatches(index, w) && i < |w|
    ensures IndexMatches(index - {w[i].request.id}, Remove(w, i))
  {
    IdsRemove(w, i);
    RemoveAt(w, i);
    var w' := Remove(w, i);
    forall j | 0 <= j < |w'| ensures w'[j].request.id in index && w'[j].request.id != w[i].request.id && index[w'[j].request.id] == w'[j].Key() {
      assert w'[j] == w[if j < i then j else j + 1];
    }
  }

  /** The front of each queue stands for that key in the flat list. */
  lemma FrontIndex(queues: map<QueueKey, QueueState>, f: Flat, k: QueueKey) returns (i: nat)
    requires WellFormed(f) && QueuesMatch(queues, f) && k in queues
    ensures queues[k].items != [] && i < |f.waiting| && f.waiting[i] == queues[k].items[0]
    ensures IsHead(f.waiting, i) && f.waiting[i].Key() == k && Project(f.waiting[..i], k) == []
  {
    ProjectKeys(f.waiting, k);
    i := ProjectIndex(f.waiting, k, 0);
    assert queues[k].items[..0] == [];
  }

  lemma HeadIsFront(queues: map<QueueKey, QueueState>, f: Flat, j: nat)
    requires WellFormed(f) && QueuesMatch(queues, f) && IsHead(f.waiting, j)
    ensures f.waiting[j].Key() in queues
    ensures queues[f.waiting[j].Key()].items != [] && queues[f.waiting[j].Key()].items[0] == f.waiting[j]
  {
    var k := f.waiting[j].Key();
    KeyHasCredit(f, j);
    var i := FrontIndex(queues, f, k);
    assert i == j;
  }

  /** The queue chosen among the map's queues holds the list's selected request. */
  lemma BestQueueIsSelected(config: Config, queues: map<QueueKey, QueueState>, f: Flat, now: nat, k: QueueKey) returns (i: nat)
    requires config.Valid() && WellFormed(f) && QueuesMatch(queues, f) && k in queues && BestQueue(config, queues, now, k)
    ensures i < |f.waiting| && f.waiting[i] == queues[k].items[0] && f.waiting[i].Key() == k
    ensures Project(f.waiting[..i], k) == [] && f.waiting != [] && Choice(config, f, now) == i
  {
    i := FrontIndex(queues, f, k);
    forall j {:trigger IsHead(f.waiting, j)} | IsHead(f.waiting, j) && j != i ensures Beats(config, f, now, i, j) {
      HeadIsFront(queues, f, j);
      assert f.waiting[j].Key() != k;
    }
    SelectedUnique(config, f, now, i, Choice(config, f, now));
  }

  ghost predicate BestQueue(config: Config, queues: map<QueueKey, QueueState>, now: nat, k: QueueKey)
    requires config.Valid()
  {
    && k in queues && queues[k].items != [] && queues[k].credit.Valid()
    && forall k' :: k' in queues && k' != k ==>
         queues[k'].items != [] && queues[k'].credit.Valid() && QueueBeats(config, queues[k], queues[k'], now)
  }

  predicate QueueBeats(config: Config, a: QueueState, b: QueueState, now: nat)
    requires config.quantum > 0.0 && a.items != [] && b.items != []
    requires a.credit.served >= 0.0 && a.credit.weight >= 1.0 && b.credit.served >= 0.0 && b.credit.weight >= 1.0
  {
    Preferred(Score(config, a.credit, a.items[0], now), a.items[0].sequence,
              Score(config, b.credit, b.items[0], now), b.items[0].sequence)
  }

  /** Everything that is true of the structure between two operations. */
  ghost predicate Coherent(config: Config, queues: map<QueueKey, QueueState>, index: map<RequestId, QueueKey>,
                           depth: nat, bytes: nat, sequence: nat, f: Flat)
  {
    && config.Valid()
    && WellFormed(f)
    && QueuesMatch(queues, f)
    && IndexMatches(index, f.waiting)
    && depth == |f.waiting| <= config.maxDepth
    && bytes == SumBytes(f.waiting) <= config.maxBytes
    && sequence == f.sequence
  }

  class Scheduler {
    const config: Config
    var queues: map<QueueKey, QueueState>
    var index: map<RequestId, QueueKey>
    var depth: nat
    var bytes: nat
    var sequence: nat
    ghost var flat: Flat

    ghost predicate Valid()
      reads this
      ensures Valid() ==> config.Valid() && WellFormed(flat)
    {
      Coherent(config, queues, index, depth, bytes, sequence, flat)
    }

    constructor (config: Config)
      requires config.Valid()
      ensures Valid() && flat == EMPTY && this.config == config
    {
      this.config := config;
      queues, index, depth, bytes, sequence := map[], map[], 0, 0, 0;
      flat := EMPTY;
    }

    method Enqueue(request: Request, bodyBytes: nat, classWeight: nat, tenantWeight: nat, appWeight: nat, now: nat)
      returns (error: Option<SchedulerError>, newDepth: nat)
      requires Valid()
      modifies this
      ensures Valid()
      ensures error == EnqueueError(config, old(flat), request, bodyBytes)
      ensures flat == Next(config, old(flat), Event.Enqueue(request, bodyBytes, classWeight, tenantWeight, appWeight, now))
      ensures error.None? ==> newDepth == |flat.waiting| == |old(flat).waiting| + 1
    {
      hide Coherent, EnqueueError, Weight;
      EnqueueChecks(config, queues, index, depth, bytes, sequence, flat, request, bodyBytes);
      newDepth := depth;
      if depth >= config.maxDepth { return Some(DepthLimit), newDepth; }
      if bytes + bodyBytes > config.maxBytes { return Some(ByteLimit), newDepth; }
      if request.id in index { return Some(Duplicate(request.id)), newDepth; }
      var weight := Weight(classWeight, tenantWeight, appWeight);
      EnqueueCoherent(config, queues, index, depth, bytes, sequence, flat, request, bodyBytes, weight, now);
      var key := request.Key();
      sequence := sequence + 1;
      var queue := if key in queues then queues[key] else QueueState([], Credit(0.0, weight));
      var item := Queued(request, now, SaturatingAdd(now, request.deadline), bodyBytes, sequence);
      queues := queues[key := queue.(items := queue.items + [item])];
      index := index[request.id := key];
      depth := depth + 1;
      bytes := bytes + bodyBytes;
      flat := Next(config, flat, Event.Enqueue(request, bodyBytes, classWeight, tenantWeight, appWeight, now));
      return None, depth;
    }

    method Cancel(id: RequestId) returns (removed: bool)
      requires Valid()
      modifies this
      ensures Valid()
      ensures removed <==> id in Ids(old(flat).waiting)
      ensures flat == Next(config, old(flat), Event.Cancel(id))
    {
      hide Coherent, Ids;
      CancelChecks(config, queues, index, depth, bytes, sequence, flat, id);
      if id !in index { return false; }
      var key := index[id];
      var items := queues[key].items;
      var pos := 0;
      while items[pos].request.id != id
        invariant 0 <= pos < |items| && forall p :: 0 <= p < pos ==> items[p].request.id != id
        decreases |items| - pos
      {
        pos := pos + 1;
      }
      CancelCoherent(config, queues, index, depth, bytes, sequence, flat, id, pos);
      index := index - {id};
      depth := depth - 1;
      bytes := bytes - items[pos].bodyBytes;
      queues := queues[key := queues[key].(items := items[..pos] + items[pos + 1..])];
      if queues[key].items == [] {
        queues := queues - {key};
      }
      flat := Next(config, flat, Event.Cancel(id));
      return true;
    }

    method PopNext(now: nat) returns (popped: Option<Request>)
      requires Valid()
      modifies this
      ensures Valid()
      ensures flat == Next(config, old(flat), Pop(now))
      ensures popped == if old(flat).waiting == [] then None
                        else Some(old(flat).waiting[Choice(config, old(flat), now)].request)
    {
      hide Coherent, BestQueue, Next, IsMinServed, Served, FrontCharged;
      PopChecks(config, queues, index, depth, bytes, sequence, flat, now);
      var selected := SelectQueue(config, queues, now);
      if selected.None? { return None; }
      var key := selected.value;
      var after, item, least := ServeFront(config, queues, key);
      PopCoherent(config, queues, index, depth, bytes, sequence, flat, now, key, least);
      queues := after;
      index := index - {item.request.id};
      depth := depth - 1;
      bytes := bytes - item.bodyBytes;
      if queues[key].items == [] {
        queues := queues - {key};
      }
      flat := Next(config, flat, Pop(now));
      return Some(item.request);
    }

    method Snapshot() returns (s: QueueSnapshot)
      requires Valid()
      ensures s == QueueSnapshot(|flat.waiting|, SumBytes(flat.waiting), |KeySet(flat.waiting)|)
    {
      s := QueueSnapshot(depth, bytes, |queues|);
      assert queues.Keys == KeySet(flat.waiting);
    }
  }

  lemma EnqueueChecks(config: Config, queues: map<QueueKey, QueueState>, index: map<RequestId, QueueKey>, depth: nat,
                      bytes: nat, sequence: nat, f: Flat, request: Request, bodyBytes: nat)
    requires Coherent(config, queues, index, depth, bytes, sequence, f)
    ensures EnqueueError(config, f, request, bodyBytes) ==
            if depth >= config.maxDepth then Some(DepthLimit)
            else if bytes + bodyBytes > config.maxBytes then Some(ByteLimit)
            else if request.id in index then Some(Duplicate(request.id))
            else None
    ensures depth == |f.waiting|
  {
  }

  lemma EnqueueCoherent(config: Config, queues: map<QueueKey, QueueState>, index: map<RequestId, QueueKey>, depth: nat,
                        bytes: nat, sequence: nat, f: Flat, request: Request, bodyBytes: nat, weight: real, now: nat)
    requires Coherent(config, queues, index, depth, bytes, sequence, f)
    requires EnqueueError(config, f, request, bodyBytes).None? && weight >= 1.0
    ensures
      var key := request.Key();
      var queue := if key in queues then queues[key] else QueueState([], Credit(0.0, weight));
      var item := Queued(request, now, SaturatingAdd(now, request.deadline), bodyBytes, sequence + 1);
      Coherent(config, queues[key := queue.(items := queue.items + [item])], index[request.id := key], depth + 1,
               bytes + bodyBytes, sequence + 1, Enqueued(f, request, bodyBytes, weight, now))
  {
    hide QueuesMatch, IndexMatches, WellFormed, SumBytes, Ids;
    EnqueuedWellFormed(f, request, bodyBytes, weight, now);
    EnqueueMatchesQueues(queues, f, request, bodyBytes, weight, now);
    EnqueueMatchesIndex(index, f.waiting, Entry(f, request, bodyBytes, now));
  }

  /** Where a queued id sits: in the queue the index names, at one position. */
  lemma Locate(queues: map<QueueKey, QueueState>, index: map<RequestId, QueueKey>, f: Flat, id: RequestId)
    returns (i: nat, p: nat)
    requires WellFormed(f) && QueuesMatch(queues, f) && IndexMatches(index, f.waiting) && id in index
    ensures i < |f.waiting| && f.waiting[i].request.id == id && index[id] == f.waiting[i].Key() && index[id] in queues
    ensures p < |queues[index[id]].items| && queues[index[id]].items[p] == f.waiting[i]
    ensures Project(f.waiting[..i], index[id]) == queues[index[id]].items[..p]
  {
    hide Project, KeySet;
    assert id in Ids(f.waiting);
    i :| 0 <= i < |f.waiting| && f.waiting[i].request.id == id;
    KeyHasCredit(f, i);
    ProjectSplit(f.waiting, i, index[id]);
    p := |Project(f.waiting[..i], index[id])|;
  }

  lemma CancelChecks(config: Config, queues: map<QueueKey, QueueState>, index: map<RequestId, QueueKey>, depth: nat,
                     bytes: nat, sequence: nat, f: Flat, id: RequestId)
    requires Coherent(config, queues, index, depth, bytes, sequence, f)
    ensures id in index <==> id in Ids(f.waiting)
    ensures id in index ==> index[id] in queues && exists p :: 0 <= p < |queues[index[id]].items| && queues[index[id]].items[p].request.id == id
  {
    if id in index {
      var i, p := Locate(queues, index, f, id);
    }
  }

  lemma CancelCoherent(config: Config, queues: map<QueueKey, QueueState>, index: map<RequestId, QueueKey>, depth: nat,
                       bytes: nat, sequence: nat, f: Flat, id: RequestId, pos: nat)
    requires Coherent(config, queues, index, depth, bytes, sequence, f) && id in index && index[id] in queues
    requires pos < |queues[index[id]].items| && queues[index[id]].items[pos].request.id == id
    ensures depth >= 1 && bytes >= queues[index[id]].items[pos].bodyBytes
    ensures
      var key := index[id];
      var items := queues[key].items[..pos] + queues[key].items[pos + 1..];
      var after := queues[key := queues[key].(items := items)];
      Coherent(config, if items == [] then after - {key} else after, index - {id},
               depth - 1, bytes - queues[key].items[pos].bodyBytes, sequence, Cancelled(f, id))
  {
    hide IndexMatches, SumBytes, Project, KeySet, IdsDistinct, Cancelled;
    var i, p := Locate(queues, index, f, id);
    SamePosition(f.waiting, index[id], pos, p, i);
    CancelIsWithout(f, id, i);
    WithoutWellFormed(f, i);
    SumBytesRemove(f.waiting, i);
    QueuesMatchRemove(queues, f, index[id], p, i);
    IndexMatchesRemove(index, f.waiting, i);
    hide WellFormed, QueuesMatch;
  }

  lemma PopChecks(config: Config, queues: map<QueueKey, QueueState>, index: map<RequestId, QueueKey>, depth: nat,
                  bytes: nat, sequence: nat, f: Flat, now: nat)
    requires Coherent(config, queues, index, depth, bytes, sequence, f)
    ensures AllOccupied(queues)
    ensures forall k, k' :: k in queues && k' in queues && k != k' ==>
              queues[k].items[0].sequence != queues[k'].items[0].sequence
    ensures queues == map[] <==> f.waiting == []
    ensures queues == map[] ==> Next(config, f, Pop(now)) == f
  {
    FrontsDiffer(queues, f);
  }

  lemma PopCoherent(config: Config, queues: map<QueueKey, QueueState>, index: map<RequestId, QueueKey>, depth: nat,
                    bytes: nat, sequence: nat, f: Flat, now: nat, key: QueueKey, least: real)
    requires Coherent(config, queues, index, depth, bytes, sequence, f)
    requires key in queues && BestQueue(config, queues, now, key) && queues[key].items != []
    requires IsMinServed(Credits(FrontCharged(queues, key)), least)
    ensures depth >= 1 && bytes >= queues[key].items[0].bodyBytes
    ensures f.waiting != [] && f.waiting[Choice(config, f, now)] == queues[key].items[0]
    ensures
      var after := Served(config, queues, key, least);
      && key in after
      && Coherent(config, if after[key].items == [] then after - {key} else after, index - {queues[key].items[0].request.id},
                  depth - 1, bytes - queues[key].items[0].bodyBytes, sequence, Next(config, f, Pop(now)))
  {
    hide QueuesMatch, IndexMatches, SumBytes, Score, Served, BestQueue, IsMinServed, KeySet, IdsDistinct, Charged, Selected;
    var i := BestQueueIsSelected(config, queues, f, now, key);
    ServedMatches(config, queues, f, key, i, least);
    IndexMatchesRemove(index, f.waiting, i);
    SumBytesRemove(f.waiting, i);
    ChargedWellFormed(config, f, i);
  }

  lemma CancelIsWithout(f: Flat, id: RequestId, i: nat)
    requires WellFormed(f) && i < |f.waiting| && f.waiting[i].request.id == id
    ensures Cancelled(f, id) == Without(f, i)
  {
  }

  lemma SamePosition(w: seq<Queued>, k: QueueKey, p: nat, at: nat, i: nat)
    requires IdsDistinct(w) && i < |w| && w[i].Key() == k && at < |Project(w, k)| && p < |Project(w, k)|
    requires Project(w[..i], k) == Project(w, k)[..at] && Project(w, k)[at] == w[i]
    requires Project(w, k)[p].request.id == w[i].request.id
    ensures p == at
  {
    var j := ProjectIndex(w, k, p);
    assert j == i;
  }

  lemma ProjectAppend(w: seq<Queued>, item: Queued)
    ensures forall k :: Project(w + [item], k) == Project(w, k) + if item.Key() == k then [item] else []
    ensures SumBytes(w + [item]) == SumBytes(w) + item.bodyBytes
  {
    assert (w + [item])[..|w|] == w;
  }

  lemma EnqueueMatchesQueues(queues: map<QueueKey, QueueState>, f: Flat, request: Request,
                             bodyBytes: nat, weight: real, now: nat)
    requires WellFormed(f) && QueuesMatch(queues, f)
    ensures
      var key, f' := request.Key(), Enqueued(f, request, bodyBytes, weight, now);
      var queue := if key in queues then queues[key] else QueueState([], Credit(0.0, weight));
      && QueuesMatch(queues[key := queue.(items := queue.items + [Entry(f, request, bodyBytes, now)])], f')
      && SumBytes(f'.waiting) == SumBytes(f.waiting) + bodyBytes
  {
    var item := Entry(f, request, bodyBytes, now);
    ProjectKeys(f.waiting, request.Key());
    ProjectAppend(f.waiting, item);
    assert f.credit.Keys == KeySet(f.waiting);
    hide Project, KeySet, SumBytes, WellFormed;
  }

  lemma EnqueueMatchesIndex(index: map<RequestId, QueueKey>, w: seq<Queued>, item: Queued)
    requires IndexMatches(index, w) && item.request.id !in Ids(w)
    ensures IndexMatches(index[item.request.id := item.Key()], w + [item])
  {
    KeySetAppend(w, item);
    assert forall i :: 0 <= i < |w| ==> w[i].request.id in Ids(w);
    hide Ids, KeySet;
  }

  // ------------------------------------------------------------------------------- serving a queue

  function Credits(queues: map<QueueKey, QueueState>): map<QueueKey, Credit>
  {
    map k | k in queues :: queues[k].credit
  }

  function TakenOff(queues: map<QueueKey, QueueState>, amount: real): map<QueueKey, QueueState>
  {
    map k | k in queues :: queues[k].(credit := queues[k].credit.(served := queues[k].credit.served - amount))
  }

  ghost predicate AllOccupied(queues: map<QueueKey, QueueState>)
  {
    forall k :: k in queues ==> queues[k].items != [] && queues[k].credit.Valid()
  }

  /** Finds the best queue whatever the order in which the map yields its entries. */
  method SelectQueue(config: Config, queues: map<QueueKey, QueueState>, now: nat) returns (selected: Option<QueueKey>)
    requires config.Valid() && AllOccupied(queues)
    requires forall k, k' :: k in queues && k' in queues && k != k' ==>
               queues[k].items[0].sequence != queues[k'].items[0].sequence
    ensures selected.None? <==> queues == map[]
    ensures selected.Some? ==> selected.value in queues && BestQueue(config, queues, now, selected.value)
  {
    selected := None;
    var todo := queues.Keys;
    while todo != {}
      invariant todo <= queues.Keys
      invariant selected.None? <==> todo == queues.Keys
      invariant selected.Some? ==> selected.value in queues.Keys - todo
      invariant selected.Some? ==> forall k :: k in queues && k !in todo && k != selected.value ==>
                                     QueueBeats(config, queues[selected.value], queues[k], now)
      decreases todo
    {
      var k :| k in todo;
      todo := todo - {k};
      if selected.None? || QueueBeats(config, queues[k], queues[selected.value], now) {
        selected := Some(k);
      }
    }
  }

  method LeastServed(queues: map<QueueKey, QueueState>) returns (least: Option<real>)
    ensures least.None? <==> queues == map[]
    ensures least.Some? ==> IsMinServed(Credits(queues), least.value)
  {
    least := None;
    ghost var witnessKey: Option<QueueKey> := None;
    var todo := queues.Keys;
    while todo != {}
      invariant todo <= queues.Keys
      invariant least.None? <==> todo == queues.Keys
      invariant least.Some? ==> forall k :: k in queues && k !in todo ==> least.value <= queues[k].credit.served
      invariant least.Some? ==> witnessKey.Some? && witnessKey.value in queues && queues[witnessKey.value].credit.served == least.value
      decreases todo
    {
      var k :| k in todo;
      todo := todo - {k};
      if least.None? || queues[k].credit.served < least.value {
        least := Some(queues[k].credit.served);
        witnessKey := Some(k);
      }
    }
    if least.Some? {
      assert Credits(queues)[witnessKey.value].served == least.value;
    }
  }

  method TakeOff(queues: map<QueueKey, QueueState>, amount: real) returns (lowered: map<QueueKey, QueueState>)
    ensures lowered == TakenOff(queues, amount)
  {
    lowered := queues;
    var todo := queues.Keys;
    while todo != {}
      invariant todo <= queues.Keys && lowered.Keys == queues.Keys
      invariant forall k :: k in todo ==> lowered[k] == queues[k]
      invariant forall k :: k in queues && k !in todo ==> lowered[k] == TakenOff(queues, amount)[k]
      decreases todo
    {
      var k :| k in todo;
      todo := todo - {k};
      var q := lowered[k];
      lowered := lowered[k := q.(credit := q.credit.(served := q.credit.served - amount))];
    }
  }

  lemma MinServedUnique(credit: map<QueueKey, Credit>, m: real, m': real)
    requires IsMinServed(credit, m) && IsMinServed(credit, m')
    ensures m == m'
  {
  }

  lemma FrontsDiffer(queues: map<QueueKey, QueueState>, f: Flat)
    requires WellFormed(f) && QueuesMatch(queues, f)
    ensures AllOccupied(queues)
    ensures forall k, k' :: k in queues && k' in queues && k != k' ==>
              queues[k].items[0].sequence != queues[k'].items[0].sequence
    ensures queues == map[] <==> f.waiting == []
  {
    forall k | k in queues ensures queues[k].items != [] && queues[k].credit.Valid() {
      var i := FrontIndex(queues, f, k);
    }
    forall k, k' | k in queues && k' in queues && k != k'
      ensures queues[k].items[0].sequence != queues[k'].items[0].sequence
    {
      var i := FrontIndex(queues, f, k);
      var j := FrontIndex(queues, f, k');
    }
    if f.waiting != [] { KeyHasCredit(f, 0); }
    if queues != map[] {
      var k :| k in queues;
      var i := FrontIndex(queues, f, k);
    }
  }

  /** The queues once the front of `key` is taken out and charged to its queue. */
  function FrontCharged(queues: map<QueueKey, QueueState>, key: QueueKey): map<QueueKey, QueueState>
    requires key in queues && queues[key].items != []
  {
    var q := queues[key];
    queues[key := QueueState(q.items[1..], Charge(q.credit, q.items[0].request.Work()))]
  }

  /** The same with the shared amount taken off every queue. */
  ghost function Served(config: Config, queues: map<QueueKey, QueueState>, key: QueueKey, least: real): map<QueueKey, QueueState>
    requires key in queues && queues[key].items != []
  {
    var charged := FrontCharged(queues, key);
    if least > config.quantum * 1000.0 then TakenOff(charged, least) else charged
  }

  /** Takes the front of a queue, charges the queue for it, and renormalises. */
  method ServeFront(config: Config, queues: map<QueueKey, QueueState>, key: QueueKey)
    returns (after: map<QueueKey, QueueState>, item: Queued, least: real)
    requires key in queues && queues[key].items != []
    ensures item == queues[key].items[0] && IsMinServed(Credits(FrontCharged(queues, key)), least)
    ensures after == Served(config, queues, key, least)
  {
    var queue := queues[key];
    item := queue.items[0];
    after := queues[key := QueueState(queue.items[1..], Charge(queue.credit, item.request.Work()))];
    assert key in after;
    var minimum := LeastServed(after);
    least := minimum.value;
    if least > config.quantum * 1000.0 {
      after := TakeOff(after, least);
    }
  }

  lemma ServedMatches(config: Config, queues: map<QueueKey, QueueState>, f: Flat, key: QueueKey, i: nat, least: real)
    requires config.Valid() && WellFormed(f) && QueuesMatch(queues, f) && key in queues && queues[key].items != []
    requires i < |f.waiting| && f.waiting[i] == queues[key].items[0] && f.waiting[i].Key() == key
    requires Project(f.waiting[..i], key) == []
    requires IsMinServed(Credits(FrontCharged(queues, key)), least)
    ensures
      var after := Served(config, queues, key, least);
      && key in after
      && QueuesMatch(if after[key].items == [] then after - {key} else after, Popped(config, f, i))
  {
    hide Charged, Project, IsMinServed, WellFormed, FrontCharged, Served, QueuesMatch;
    var c := Charged(config, f, i);
    var items := queues[key].items;
    var after := Served(config, queues, key, least);
    ServedShape(config, queues, key, least);
    var middle := after[key := after[key].(items := items)];
    ChargedWellFormed(config, f, i);
    MiddleMatches(config, queues, f, key, i, least);
    assert items[..0] + items[1..] == items[1..] && items[..0] == [];
    QueuesMatchRemove(middle, c, key, 0, i);
    assert middle[key := middle[key].(items := items[1..])] == after;
  }

  /** Before the front is taken out, the charged queues match the charged list. */
  lemma MiddleMatches(config: Config, queues: map<QueueKey, QueueState>, f: Flat, key: QueueKey, i: nat, least: real)
    requires config.Valid() && WellFormed(f) && QueuesMatch(queues, f) && key in queues && queues[key].items != []
    requires i < |f.waiting| && f.waiting[i] == queues[key].items[0] && f.waiting[i].Key() == key
    requires IsMinServed(Credits(FrontCharged(queues, key)), least)
    ensures
      var after := Served(config, queues, key, least);
      key in after && QueuesMatch(after[key := after[key].(items := queues[key].items)], Charged(config, f, i))
  {
    hide Charged, Project, IsMinServed, FrontCharged, KeySet, SequencesIncrease, IdsDistinct;
    ChargedWellFormed(config, f, i);
    ServedCredits(config, queues, f, key, i, least);
    ServedShape(config, queues, key, least);
    hide Served, WellFormed;
    var after := Served(config, queues, key, least);
    assert forall k :: k in after ==> Credits(after)[k] == after[k].credit;
  }

  lemma ServedShape(config: Config, queues: map<QueueKey, QueueState>, key: QueueKey, least: real)
    requires key in queues && queues[key].items != []
    ensures
      var after := Served(config, queues, key, least);
      && after.Keys == queues.Keys
      && forall k :: k in queues ==> after[k].items == if k == key then queues[k].items[1..] else queues[k].items
  {
  }

  lemma ServedCredits(config: Config, queues: map<QueueKey, QueueState>, f: Flat, key: QueueKey, i: nat, least: real)
    requires config.Valid() && WellFormed(f) && QueuesMatch(queues, f) && key in queues && queues[key].items != []
    requires i < |f.waiting| && f.waiting[i] == queues[key].items[0] && f.waiting[i].Key() == key
    requires IsMinServed(Credits(FrontCharged(queues, key)), least)
    ensures Credits(Served(config, queues, key, least)) == Charged(config, f, i).credit
  {
    hide Charge, Project, KeySet, SequencesIncrease, IdsDistinct;
    var charged := FrontCharged(queues, key);
    var credit := f.credit[key := Charge(f.credit[key], f.waiting[i].request.Work())];
    assert Credits(charged) == credit;
    assert key in credit;
    MinServedUnique(credit, least, MinServed(credit));
  }
}
