/** The shared coordinator answers like the in-memory one, and exactly when it may not. */
module ValkeyRefinement {
  import opened Sums
  import opened Valkey
  import opened CoordinatorRuns
  import C = Coordinator

  // ------------------------------------------------------------------------- the relation of states

  function ScopeName(scope: Option<string>): string { if scope.Some? then scope.value else "" }

  /** A field's text stands for a lease. */
  ghost predicate Mirrors(fmt: NumberFormat, text: string, entry: C.Entry)
  {
    && Decode(fmt, text) == Field(entry.units, entry.expiry as real, ScopeName(entry.scope))
    && entry.scope != Some("") && entry.units >= 0.0
  }

  /** Both sides hold the same unexpired leases; what has expired may differ. */
  ghost predicate PoolAgrees(fmt: NumberFormat, leases: C.Leases, fields: map<LeaseId, string>, now: nat)
  {
    var live, liveFields := C.Purge(leases, now), LiveFields(fmt, fields, now);
    && live.Keys == liveFields.Keys
    && forall i :: i in live ==> Mirrors(fmt, liveFields[i], live[i])
  }

  /** No field outlives its key, and none lasts longer than one time-to-live from now. */
  ghost predicate HashOutlivesFields(fmt: NumberFormat, hash: Hash, now: nat, ttl: nat)
  {
    forall i :: i in hash.fields ==> Decode(fmt, hash.fields[i]).expires <= hash.expireAt as real
                                     && Decode(fmt, hash.fields[i]).expires <= (now + ttl) as real
  }

  ghost predicate PoolsAgree(fmt: NumberFormat, namespace: string, mem: C.Store, server: Server, now: nat)
  {
    forall pool :: PoolAgrees(fmt, C.Pool(mem, pool), Fields(server, Key(namespace, pool), now), now)
  }

  /** Both sides store the same leases, expired ones included. */
  ghost predicate FullyAgrees(fmt: NumberFormat, leases: C.Leases, fields: map<LeaseId, string>)
  {
    leases.Keys == fields.Keys && forall i :: i in leases ==> Mirrors(fmt, fields[i], leases[i])
  }

  predicate KeyAlive(server: Server, key: string, now: nat) { key in server && now < server[key].expireAt }

  /** While a pool's key has not timed out, expired leases agree too, except in the pools named `untidy`. */
  ghost predicate StoresAgree(fmt: NumberFormat, namespace: string, mem: C.Store, server: Server, untidy: set<string>, now: nat)
  {
    forall pool :: pool !in untidy && KeyAlive(server, Key(namespace, pool), now) ==>
                     FullyAgrees(fmt, C.Pool(mem, pool), server[Key(namespace, pool)].fields)
  }

  ghost predicate HashesOutliveFields(fmt: NumberFormat, server: Server, now: nat, ttl: nat)
  {
    forall key :: key in server ==> HashOutlivesFields(fmt, server[key], now, ttl)
  }

  // --------------------------------------------------------------------------------- time goes by

  lemma PoolAgreesLater(fmt: NumberFormat, leases: C.Leases, fields: map<LeaseId, string>, now: nat, later: nat)
    requires now <= later && PoolAgrees(fmt, leases, fields, now)
    ensures PoolAgrees(fmt, leases, fields, later)
  {
    var live, liveFields := C.Purge(leases, now), LiveFields(fmt, fields, now);
    var live', liveFields' := C.Purge(leases, later), LiveFields(fmt, fields, later);
    forall i ensures i in live' <==> i in liveFields' {
      assert i in live' ==> i in live;
      assert i in liveFields' ==> i in liveFields;
      if i in live { assert Mirrors(fmt, liveFields[i], live[i]); }
    }
    forall i | i in live' ensures Mirrors(fmt, liveFields'[i], live'[i]) {
      assert i in live && Mirrors(fmt, liveFields[i], live[i]);
    }
  }

  /** A key that times out takes no unexpired lease with it. */
  lemma KeyExpiryLosesNothing(fmt: NumberFormat, namespace: string, mem: C.Store, server: Server, pool: string, now: nat, later: nat, ttl: nat)
    requires now <= later && PoolAgrees(fmt, C.Pool(mem, pool), Fields(server, Key(namespace, pool), now), now)
    requires HashesOutliveFields(fmt, server, now, ttl)
    ensures PoolAgrees(fmt, C.Pool(mem, pool), Fields(server, Key(namespace, pool), later), later)
  {
    hide Key, Decode;
    var key := Key(namespace, pool);
    var fields := Fields(server, key, now);
    PoolAgreesLater(fmt, C.Pool(mem, pool), fields, now, later);
    if Fields(server, key, later) != fields {
      assert HashOutlivesFields(fmt, server[key], now, ttl);
      assert LiveFields(fmt, fields, later) == map[];
      assert LiveFields(fmt, map[], later) == map[];
    }
  }

  lemma AgreeLater(fmt: NumberFormat, namespace: string, mem: C.Store, server: Server, untidy: set<string>, now: nat, later: nat, ttl: nat)
    requires now <= later && Agree(fmt, namespace, mem, server, untidy, now) && HashesOutliveFields(fmt, server, now, ttl)
    ensures Agree(fmt, namespace, mem, server, untidy, later) && HashesOutliveFields(fmt, server, later, ttl)
  {
    hide PoolAgrees, FullyAgrees, Key, Decode, Fields;
    forall pool ensures PoolAgrees(fmt, C.Pool(mem, pool), Fields(server, Key(namespace, pool), later), later) {
      KeyExpiryLosesNothing(fmt, namespace, mem, server, pool, now, later, ttl);
    }
  }

  // -------------------------------------------------------------------- the same sums, the same answer

  lemma SameSums(fmt: NumberFormat, leases: C.Leases, fields: map<LeaseId, string>, now: nat)
    requires PoolAgrees(fmt, leases, fields, now)
    ensures
      var live, liveFields := C.Purge(leases, now), LiveFields(fmt, fields, now);
      && NonNegative(C.AllUnits(live))
      && C.AllUnits(live) == Amounts(fmt, liveFields)
      && forall scope :: scope != "" ==> C.ScopeUnits(live, scope) == ScopeAmounts(fmt, liveFields, scope)
  {
    hide Decode;
    var live, liveFields := C.Purge(leases, now), LiveFields(fmt, fields, now);
    assert forall i :: i in live ==> Mirrors(fmt, liveFields[i], live[i]);
    assert C.AllUnits(live) == Amounts(fmt, liveFields);
    forall scope | scope != "" ensures C.ScopeUnits(live, scope) == ScopeAmounts(fmt, liveFields, scope) {
      assert forall i :: i in live ==> (live[i].scope == Some(scope) <==> Decode(fmt, liveFields[i]).scope == scope);
    }
  }

  lemma ScopeWithinTotal(fmt: NumberFormat, fields: map<LeaseId, string>, scope: string)
    requires NonNegative(Amounts(fmt, fields))
    ensures Sum(ScopeAmounts(fmt, fields, scope)) <= Sum(Amounts(fmt, fields))
  {
    SumSubmap(ScopeAmounts(fmt, fields, scope), Amounts(fmt, fields));
  }

  lemma SameDecision(fmt: NumberFormat, leases: C.Leases, fields: map<LeaseId, string>, op: C.Op, now: nat)
    requires PoolAgrees(fmt, leases, fields, now)
    requires op.Reserve? || (op.ReserveScoped? && op.scope != "")
    ensures C.Fits(C.Purge(leases, now), op) <==> Accepts(fmt, LiveFields(fmt, fields, now), Args(op, now))
  {
    hide Decode, PoolAgrees, LiveFields, C.Purge, C.AllUnits, C.ScopeUnits, Amounts, ScopeAmounts;
    SameSums(fmt, leases, fields, now);
    if op.Reserve? { ScopeWithinTotal(fmt, LiveFields(fmt, fields, now), ""); }
  }

  // ------------------------------------------------------------------------- what each operation keeps

  lemma PurgedAgrees(fmt: NumberFormat, leases: C.Leases, fields: map<LeaseId, string>, now: nat)
    requires PoolAgrees(fmt, leases, fields, now)
    ensures PoolAgrees(fmt, C.Purge(leases, now), fields, now)
    ensures PoolAgrees(fmt, C.Purge(leases, now), LiveFields(fmt, fields, now), now)
  {
    hide Decode;
    assert C.Purge(C.Purge(leases, now), now) == C.Purge(leases, now);
    assert LiveFields(fmt, LiveFields(fmt, fields, now), now) == LiveFields(fmt, fields, now);
  }

  lemma StoredAgrees(fmt: NumberFormat, leases: C.Leases, fields: map<LeaseId, string>, now: nat, id: LeaseId,
                     entry: C.Entry, text: string)
    requires PoolAgrees(fmt, leases, fields, now) && Mirrors(fmt, text, entry)
    ensures PoolAgrees(fmt, leases[id := entry], fields[id := text], now)
  {
    hide Decode;
    var live, liveFields := C.Purge(leases, now), LiveFields(fmt, fields, now);
    var live', liveFields' := C.Purge(leases[id := entry], now), LiveFields(fmt, fields[id := text], now);
    assert forall i :: i != id ==> (i in live' <==> i in live) && (i in liveFields' <==> i in liveFields);
    forall i | i in live' ensures Mirrors(fmt, liveFields'[i], live'[i]) {
      if i != id { assert Mirrors(fmt, liveFields[i], live[i]); }
    }
  }

  lemma DeletedAgrees(fmt: NumberFormat, leases: C.Leases, fields: map<LeaseId, string>, now: nat, id: LeaseId)
    requires PoolAgrees(fmt, leases, fields, now)
    ensures PoolAgrees(fmt, leases - {id}, fields - {id}, now)
  {
    hide Decode;
    assert C.Purge(leases - {id}, now) == C.Purge(leases, now) - {id};
    assert LiveFields(fmt, fields - {id}, now) == LiveFields(fmt, fields, now) - {id};
  }

  lemma GrantedTextMirrors(fmt: NumberFormat, op: C.Op, now: nat)
    requires op.Reserve? || (op.ReserveScoped? && op.scope != "")
    requires op.units >= 0.0 && Exact(fmt, op.units) && Exact(fmt, (now + op.ttl) as real)
    ensures Mirrors(fmt, Join(fmt.show(op.units), fmt.show((now + op.ttl) as real), Args(op, now).scope), C.NewEntry(op, now))
  {
    SplitJoin(fmt.show(op.units), fmt.show((now + op.ttl) as real), Args(op, now).scope);
    hide Join, AmountText, ExpiryText, ScopeText;
  }

  lemma RestampedMirrors(fmt: NumberFormat, text: string, entry: C.Entry, expiry: nat)
    requires Mirrors(fmt, text, entry) && fmt.read(Digits(expiry)) == expiry as real
    ensures Mirrors(fmt, Restamped(text, expiry), entry.(expiry := expiry))
  {
    AmountHasNoColon(text);
    DigitsNoColon(expiry);
    SplitJoin(AmountText(text), Digits(expiry), ScopeText(text));
    hide Join, AmountText, ExpiryText, ScopeText, Digits;
  }

  // ------------------------------------------------------------------------------------ one operation

  /** A reserve without a scope and with a negative limit makes one coordinator purge and not the other;
      the next valid reserve evens that out. */
  function NextUntidy(untidy: set<string>, op: C.Op): set<string>
  {
    if !(op.Reserve? || op.ReserveScoped?) || op.units < 0.0 then untidy
    else if op.Reserve? && op.limit < 0.0 then untidy + {op.pool}
    else if ValidArgs(Args(op, 0)) then untidy - {op.pool}
    else untidy
  }

  ghost predicate Expired(fmt: NumberFormat, leases: C.Leases, fields: map<LeaseId, string>, now: nat, id: LeaseId)
  {
    (id in leases && id !in C.Purge(leases, now)) || (id in fields && id !in LiveFields(fmt, fields, now))
  }

  /** The calls on which the two are compared: one time-to-live for all, a named scope, numbers that
      the format writes exactly, an id not used before, and no renewal of an expired lease once the key of
      its pool has timed out or while the pool is untidy. */
  ghost predicate Allowed(fmt: NumberFormat, namespace: string, ttl: nat, mem: C.Store, server: Server, untidy: set<string>, e: Event)
  {
    var leases, fields := C.Pool(mem, e.op.pool), Fields(server, Key(namespace, e.op.pool), e.now);
    match e.op
    case Release(_, _) => true
    case Renew(pool, id, t) =>
      && t == ttl && fmt.read(Digits(e.now + ttl)) == (e.now + ttl) as real
      && (Expired(fmt, leases, fields, e.now, id) ==> pool !in untidy && KeyAlive(server, Key(namespace, pool), e.now))
    case _ =>
      && e.op.ttl == ttl && (e.op.ReserveScoped? ==> e.op.scope != "")
      && (e.op.units >= 0.0 ==> Exact(fmt, e.op.units) && Exact(fmt, (e.now + ttl) as real))
      && e.op.id !in leases && e.op.id !in fields
  }

  /** Equal answers, except that a negative pool limit without a scope is refused by one coordinator
      and called invalid by the other. */
  predicate SameAnswer(op: C.Op, mem: Answer, valkey: Answer)
  {
    mem == valkey || (op.Reserve? && op.limit < 0.0 && mem == C.Refused && valkey == C.Invalid)
  }

  /** A renewal that is allowed finds its lease on both sides, standing for the same, or on neither. */
  lemma RenewFindsBoth(fmt: NumberFormat, leases: C.Leases, fields: map<LeaseId, string>, now: nat, id: LeaseId)
    requires PoolAgrees(fmt, leases, fields, now)
    requires Expired(fmt, leases, fields, now, id) ==> FullyAgrees(fmt, leases, fields)
    ensures id in leases <==> id in fields
    ensures id in leases ==> Mirrors(fmt, fields[id], leases[id])
  {
    hide Decode, Mirrors;
    if !Expired(fmt, leases, fields, now, id) {
      assert id in leases ==> id in C.Purge(leases, now);
      assert id in fields ==> id in LiveFields(fmt, fields, now);
    }
  }

  /** What the stores agree on in the pool of a call. */
  ghost predicate Here(fmt: NumberFormat, namespace: string, mem: C.Store, server: Server, untidy: set<string>, e: Event)
  {
    var leases, key := C.Pool(mem, e.op.pool), Key(namespace, e.op.pool);
    && PoolAgrees(fmt, leases, Fields(server, key, e.now), e.now)
    && (e.op.pool !in untidy && KeyAlive(server, key, e.now) ==> FullyAgrees(fmt, leases, server[key].fields))
  }

  lemma NegativeLimitRefused(leases: C.Leases, op: C.Op)
    requires (op.Reserve? || op.ReserveScoped?) && NonNegative(C.AllUnits(leases))
    ensures op.limit < 0.0 && op.units >= 0.0 ==> !C.Fits(leases, op)
  {
    SumNonNegative(C.AllUnits(leases));
  }

  lemma AnswersAgree(fmt: NumberFormat, namespace: string, ttl: nat, mem: C.Store, server: Server, untidy: set<string>, e: Event)
    requires Here(fmt, namespace, mem, server, untidy, e) && Allowed(fmt, namespace, ttl, mem, server, untidy, e)
    ensures SameAnswer(e.op, C.AnswerTo(mem, e), AnswerTo(fmt, namespace, server, e))
  {
    hide Key, Decode, Exact, Digits, Accepts, C.Fits, LiveFields, C.Purge, C.AllUnits, PoolAgrees, FullyAgrees, Expired;
    var leases, fields := C.Pool(mem, e.op.pool), Fields(server, Key(namespace, e.op.pool), e.now);
    match e.op
    case Release(_, _) =>
    case Renew(_, id, _) => RenewFindsBoth(fmt, leases, fields, e.now, id);
    case _ =>
      SameDecision(fmt, leases, fields, e.op, e.now);
      SameSums(fmt, leases, fields, e.now);
      NegativeLimitRefused(C.Purge(leases, e.now), e.op);
  }

  lemma PutFields(server: Server, key: string, fields: map<LeaseId, string>, now: nat)
    requires forall i :: i in fields ==> i in Fields(server, key, now)
    ensures Fields(Put(server, key, fields, if key in server then server[key].expireAt else 0), key, now) == fields
  {
    if fields != map[] {
      var i :| i in fields;
      assert i in Fields(server, key, now);
    }
  }

  lemma PoolKeepsAgreeing(fmt: NumberFormat, namespace: string, ttl: nat, mem: C.Store, server: Server, untidy: set<string>, e: Event)
    requires Here(fmt, namespace, mem, server, untidy, e) && Allowed(fmt, namespace, ttl, mem, server, untidy, e)
    ensures Here(fmt, namespace, C.Next(mem, e), Next(fmt, namespace, server, e), NextUntidy(untidy, e.op), e)
  {
    hide Here, Allowed, C.Next, Next, NextUntidy;
    match e.op
    case Release(_, _) => ReleaseKeepsAgreeing(fmt, namespace, mem, server, untidy, e);
    case Renew(_, _, _) => RenewKeepsAgreeing(fmt, namespace, ttl, mem, server, untidy, e);
    case _ => ReserveKeepsAgreeing(fmt, namespace, ttl, mem, server, untidy, e);
  }

  lemma ReleaseKeepsAgreeing(fmt: NumberFormat, namespace: string, mem: C.Store, server: Server, untidy: set<string>, e: Event)
    requires e.op.Release? && Here(fmt, namespace, mem, server, untidy, e)
    ensures Here(fmt, namespace, C.Next(mem, e), Next(fmt, namespace, server, e), NextUntidy(untidy, e.op), e)
  {
    hide Key, Decode, PoolAgrees, Mirrors;
    var key, id := Key(namespace, e.op.pool), e.op.id;
    var leases, fields := C.Pool(mem, e.op.pool), Fields(server, key, e.now);
    DeletedAgrees(fmt, leases, fields, e.now, id);
    PutFields(server, key, fields - {id}, e.now);
    assert C.Pool(C.Next(mem, e), e.op.pool) == leases - {id};
  }

  lemma RenewKeepsAgreeing(fmt: NumberFormat, namespace: string, ttl: nat, mem: C.Store, server: Server, untidy: set<string>, e: Event)
    requires e.op.Renew? && Here(fmt, namespace, mem, server, untidy, e) && Allowed(fmt, namespace, ttl, mem, server, untidy, e)
    ensures Here(fmt, namespace, C.Next(mem, e), Next(fmt, namespace, server, e), NextUntidy(untidy, e.op), e)
  {
    hide Key, Decode, PoolAgrees, Digits, Restamped, Mirrors, Expired;
    var key, id := Key(namespace, e.op.pool), e.op.id;
    var leases, fields := C.Pool(mem, e.op.pool), Fields(server, key, e.now);
    RenewFindsBoth(fmt, leases, fields, e.now, id);
    if id in leases {
      var entry, text := leases[id].(expiry := e.now + ttl), Restamped(fields[id], e.now + ttl);
      RestampedMirrors(fmt, fields[id], leases[id], e.now + ttl);
      StoredAgrees(fmt, leases, fields, e.now, id, entry, text);
    }
  }

  lemma ReserveKeepsAgreeing(fmt: NumberFormat, namespace: string, ttl: nat, mem: C.Store, server: Server, untidy: set<string>, e: Event)
    requires e.op.Reserve? || e.op.ReserveScoped?
    requires Here(fmt, namespace, mem, server, untidy, e) && Allowed(fmt, namespace, ttl, mem, server, untidy, e)
    ensures Here(fmt, namespace, C.Next(mem, e), Next(fmt, namespace, server, e), NextUntidy(untidy, e.op), e)
  {
    var op := e.op;
    if op.units < 0.0 || (op.ReserveScoped? && !ValidArgs(Args(op, e.now))) {
      hide Key, Decode, Accepts, PoolAgrees, FullyAgrees;
    } else if op.Reserve? && op.limit < 0.0 {
      hide Key, Decode, Accepts, PoolAgrees, FullyAgrees, C.Fits, C.Purge, LiveFields, Exact;
      AnswersAgree(fmt, namespace, ttl, mem, server, untidy, e);
      PurgedAgrees(fmt, C.Pool(mem, op.pool), Fields(server, Key(namespace, op.pool), e.now), e.now);
    } else {
      ValidReserveAgrees(fmt, namespace, ttl, mem, server, untidy, e);
    }
  }

  lemma ValidReserveAgrees(fmt: NumberFormat, namespace: string, ttl: nat, mem: C.Store, server: Server, untidy: set<string>, e: Event)
    requires (e.op.Reserve? || e.op.ReserveScoped?) && ValidArgs(Args(e.op, e.now))
    requires Here(fmt, namespace, mem, server, untidy, e) && Allowed(fmt, namespace, ttl, mem, server, untidy, e)
    ensures Here(fmt, namespace, C.Next(mem, e), Next(fmt, namespace, server, e), NextUntidy(untidy, e.op), e)
  {
    hide Key, Decode, Exact, PoolAgrees, Accepts, C.Fits, C.Purge, Mirrors;
    var key, op := Key(namespace, e.op.pool), e.op;
    var leases, fields := C.Pool(mem, op.pool), Fields(server, key, e.now);
    var live, liveFields := C.Purge(leases, e.now), LiveFields(fmt, fields, e.now);
    SameDecision(fmt, leases, fields, op, e.now);
    PurgedAgrees(fmt, leases, fields, e.now);
    LiveFullyAgrees(fmt, leases, fields, e.now);
    PutFields(server, key, liveFields, e.now);
    hide LiveFields;
    if C.Fits(live, op) {
      GrantedTextMirrors(fmt, op, e.now);
      StoredAgrees(fmt, live, liveFields, e.now, op.id, C.NewEntry(op, e.now),
                   Join(fmt.show(op.units), fmt.show((e.now + op.ttl) as real), Args(op, e.now).scope));
    }
  }

  lemma LiveFullyAgrees(fmt: NumberFormat, leases: C.Leases, fields: map<LeaseId, string>, now: nat)
    requires PoolAgrees(fmt, leases, fields, now)
    ensures FullyAgrees(fmt, C.Purge(leases, now), LiveFields(fmt, fields, now))
  {
    hide Mirrors;
  }

  // ------------------------------------------------------------- keys keep outliving their fields

  lemma JoinExpires(fmt: NumberFormat, amount: string, expiry: string, scope: string)
    requires NoColon(amount) && NoColon(expiry)
    ensures Decode(fmt, Join(amount, expiry, scope)).expires == fmt.read(expiry)
  {
    SplitJoin(amount, expiry, scope);
  }

  /** With one time-to-live, restarting the key's clock never brings it before any field's expiry. */
  lemma KeyKeepsOutliving(fmt: NumberFormat, namespace: string, ttl: nat, mem: C.Store, server: Server, untidy: set<string>, e: Event)
    requires HashesOutliveFields(fmt, server, e.now, ttl) && Allowed(fmt, namespace, ttl, mem, server, untidy, e)
    ensures HashesOutliveFields(fmt, Next(fmt, namespace, server, e), e.now, ttl)
  {
    hide Decode, Digits, Accepts, C.Purge, C.Pool, Restamped, Join;
    var key := Key(namespace, e.op.pool);
    hide Key;
    if key in server { assert HashOutlivesFields(fmt, server[key], e.now, ttl); }
    match e.op
    case Release(_, _) =>
    case Renew(_, id, _) =>
      if id in Fields(server, key, e.now) {
        var text := server[key].fields[id];
        AmountHasNoColon(text);
        DigitsNoColon(e.now + ttl);
        assert Decode(fmt, Restamped(text, e.now + ttl)).expires == (e.now + ttl) as real by {
          RestampedExpires(fmt, text, e.now + ttl);
        }
      }
    case _ =>
      if e.op.units >= 0.0 {
        JoinExpires(fmt, fmt.show(e.op.units), fmt.show((e.now + ttl) as real), Args(e.op, e.now).scope);
      }
  }

  lemma RestampedExpires(fmt: NumberFormat, text: string, expiry: nat)
    ensures Decode(fmt, Restamped(text, expiry)).expires == fmt.read(Digits(expiry))
  {
    AmountHasNoColon(text);
    DigitsNoColon(expiry);
    JoinExpires(fmt, AmountText(text), Digits(expiry), ScopeText(text));
  }

  lemma OtherKeysKept(fmt: NumberFormat, namespace: string, server: Server, e: Event, key: string)
    requires key != Key(namespace, e.op.pool)
    ensures key in Next(fmt, namespace, server, e) <==> key in server
    ensures key in server ==> Next(fmt, namespace, server, e)[key] == server[key]
  {
    hide Decode, Key, LiveFields, Accepts, Join;
  }

  ghost predicate Agree(fmt: NumberFormat, namespace: string, mem: C.Store, server: Server, untidy: set<string>, now: nat)
  {
    PoolsAgree(fmt, namespace, mem, server, now) && StoresAgree(fmt, namespace, mem, server, untidy, now)
  }

  lemma HereAndElsewhere(fmt: NumberFormat, namespace: string, mem: C.Store, server: Server, untidy: set<string>, e: Event, now: nat)
    requires Agree(fmt, namespace, mem, server, untidy, now) && now == e.now
    ensures Here(fmt, namespace, mem, server, untidy, e)
  {
    hide PoolAgrees, FullyAgrees, Key, KeyAlive, Fields;
  }

  lemma StepAgrees(fmt: NumberFormat, namespace: string, ttl: nat, mem: C.Store, server: Server, untidy: set<string>, e: Event)
    requires Agree(fmt, namespace, mem, server, untidy, e.now) && Allowed(fmt, namespace, ttl, mem, server, untidy, e)
    ensures SameAnswer(e.op, C.AnswerTo(mem, e), AnswerTo(fmt, namespace, server, e))
    ensures Agree(fmt, namespace, C.Next(mem, e), Next(fmt, namespace, server, e), NextUntidy(untidy, e.op), e.now)
  {
    hide PoolAgrees, FullyAgrees, Allowed, C.Pool, Key, C.Next, Next, C.AnswerTo, AnswerTo, SameAnswer, Here;
    HereAndElsewhere(fmt, namespace, mem, server, untidy, e, e.now);
    AnswersAgree(fmt, namespace, ttl, mem, server, untidy, e);
    PoolKeepsAgreeing(fmt, namespace, ttl, mem, server, untidy, e);
    var mem', server', untidy' := C.Next(mem, e), Next(fmt, namespace, server, e), NextUntidy(untidy, e.op);
    forall pool
      ensures PoolAgrees(fmt, C.Pool(mem', pool), Fields(server', Key(namespace, pool), e.now), e.now)
      ensures pool !in untidy' && KeyAlive(server', Key(namespace, pool), e.now) ==>
                FullyAgrees(fmt, C.Pool(mem', pool), server'[Key(namespace, pool)].fields)
    {
      if pool == e.op.pool {
        assert Here(fmt, namespace, mem', server', untidy', e);
        HereMeans(fmt, namespace, mem', server', untidy', e);
      } else {
        assert PoolAgrees(fmt, C.Pool(mem, pool), Fields(server, Key(namespace, pool), e.now), e.now);
        if Key(namespace, pool) == Key(namespace, e.op.pool) { KeyInjective(namespace, pool, e.op.pool); }
        OtherKeysKept(fmt, namespace, server, e, Key(namespace, pool));
        OtherPoolsKept(mem, GrantedLimits(map[], map[]), e, pool);
        assert pool in untidy' <==> pool in untidy;
      }
    }
  }

  lemma HereMeans(fmt: NumberFormat, namespace: string, mem: C.Store, server: Server, untidy: set<string>, e: Event)
    requires Here(fmt, namespace, mem, server, untidy, e)
    ensures PoolAgrees(fmt, C.Pool(mem, e.op.pool), Fields(server, Key(namespace, e.op.pool), e.now), e.now)
    ensures e.op.pool !in untidy && KeyAlive(server, Key(namespace, e.op.pool), e.now) ==>
              FullyAgrees(fmt, C.Pool(mem, e.op.pool), server[Key(namespace, e.op.pool)].fields)
  {
    hide PoolAgrees, FullyAgrees;
  }

  // ------------------------------------------------------------------------------------------ every run

  ghost predicate AllowedRun(fmt: NumberFormat, namespace: string, ttl: nat, mem: C.Store, server: Server, untidy: set<string>,
                             now: nat, es: seq<Event>)
    decreases |es|
  {
    es != [] ==>
      && now <= es[0].now && Allowed(fmt, namespace, ttl, mem, server, untidy, es[0])
      && AllowedRun(fmt, namespace, ttl, C.Next(mem, es[0]), Next(fmt, namespace, server, es[0]), NextUntidy(untidy, es[0].op), es[0].now, es[1..])
  }

  ghost predicate SameAnswers(fmt: NumberFormat, namespace: string, mem: C.Store, server: Server, es: seq<Event>)
    decreases |es|
  {
    es != [] ==>
      && SameAnswer(es[0].op, C.AnswerTo(mem, es[0]), AnswerTo(fmt, namespace, server, es[0]))
      && SameAnswers(fmt, namespace, C.Next(mem, es[0]), Next(fmt, namespace, server, es[0]), es[1..])
  }

  lemma {:induction false} RunAgrees(fmt: NumberFormat, namespace: string, ttl: nat, mem: C.Store, server: Server, untidy: set<string>,
                                     now: nat, es: seq<Event>)
    requires Agree(fmt, namespace, mem, server, untidy, now) && HashesOutliveFields(fmt, server, now, ttl)
    requires AllowedRun(fmt, namespace, ttl, mem, server, untidy, now, es)
    ensures SameAnswers(fmt, namespace, mem, server, es)
    decreases |es|
  {
    hide Agree, HashesOutliveFields, Allowed, C.Next, Next, SameAnswer, C.AnswerTo, AnswerTo, NextUntidy;
    if es != [] {
      var e := es[0];
      AgreeLater(fmt, namespace, mem, server, untidy, now, e.now, ttl);
      StepAgrees(fmt, namespace, ttl, mem, server, untidy, e);
      KeyKeepsOutliving(fmt, namespace, ttl, mem, server, untidy, e);
      RunAgrees(fmt, namespace, ttl, C.Next(mem, e), Next(fmt, namespace, server, e), NextUntidy(untidy, e.op), e.now, es[1..]);
    }
  }

  /** Every run of allowed calls, starting from nothing stored, is answered alike by both coordinators. */
  lemma ValkeyRefinesMemory(fmt: NumberFormat, namespace: string, ttl: nat, es: seq<Event>)
    requires AllowedRun(fmt, namespace, ttl, map[], map[], {}, 0, es)
    ensures SameAnswers(fmt, namespace, map[], map[], es)
  {
    forall pool ensures PoolAgrees(fmt, C.Pool(map[], pool), Fields(map[], Key(namespace, pool), 0), 0) {
      assert C.Purge(map[], 0) == map[] && LiveFields(fmt, map[], 0) == map[];
    }
    RunAgrees(fmt, namespace, ttl, map[], map[], {}, 0, es);
  }
}
