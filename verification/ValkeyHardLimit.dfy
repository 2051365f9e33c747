/** The hard limits of the shared store. Every grant deletes what has expired and sums the rest in one
    pass, so the limits hold whatever clocks, lifetimes and scopes the callers use. */
module ValkeyHardLimit {
  import opened Sums
  import opened Valkey
  import opened CoordinatorRuns
  import C = Coordinator

  /** A call and the reading of the server's own clock when it arrives. */
  datatype Timed = Timed(call: Event, at: nat)

  /** The texts that a reserve stores have no colon in them, and no amount is read back as less than nothing. */
  ghost predicate Writes(fmt: NumberFormat, e: Event)
  {
    (e.op.Reserve? || e.op.ReserveScoped?) && e.op.units >= 0.0 ==>
      && NoColon(fmt.show(e.op.units)) && NoColon(fmt.show((e.now + e.op.ttl) as real))
      && fmt.read(fmt.show(e.op.units)) >= 0.0
  }

  /** How much more than written the format reads back. */
  function Excess(fmt: NumberFormat, x: real): real { Max(0.0, fmt.read(fmt.show(x)) - x) }

  /** The format does not read the amount of this call back as more than was written. */
  ghost predicate NeverReadsMore(fmt: NumberFormat, e: Event)
  {
    (e.op.Reserve? || e.op.ReserveScoped?) && e.op.units >= 0.0 ==> fmt.read(fmt.show(e.op.units)) <= e.op.units
  }

  /** All fields of a key, also of one that has timed out and not been touched since. */
  function Stored(server: Server, key: string): map<LeaseId, string>
  {
    if key in server then server[key].fields else map[]
  }

  /** The limits given with the latest successful grant, with its excess or without; a grant without a scope is
      one in the scope "". */
  ghost function SharedLimits(fmt: NumberFormat, namespace: string, server: Server, limits: GrantedLimits, t: Timed, excess: bool): GrantedLimits
  {
    var e := t.call;
    if AnswerAt(fmt, namespace, server, e, t.at) == C.Granted && (e.op.Reserve? || e.op.ReserveScoped?) then
      var a := Args(e.op, e.now);
      var more := if excess then Excess(fmt, a.units) else 0.0;
      GrantedLimits(limits.pools[e.op.pool := a.limit + more], limits.scopes[(e.op.pool, a.scope) := a.scopeLimit + more])
    else limits
  }

  ghost predicate FieldsWithin(fmt: NumberFormat, fields: map<LeaseId, string>, limits: GrantedLimits, pool: string)
  {
    && NonNegative(Amounts(fmt, fields))
    && Sum(Amounts(fmt, fields)) <= PoolLimit(limits, pool)
    && forall scope :: Sum(ScopeAmounts(fmt, fields, scope)) <= ScopeLimit(limits, pool, scope)
  }

  // -------------------------------------------------------------------------- what each call does

  lemma FewerFieldsHoldLess(fmt: NumberFormat, few: map<LeaseId, string>, many: map<LeaseId, string>)
    requires forall i :: i in few ==> i in many && few[i] == many[i]
    requires NonNegative(Amounts(fmt, many))
    ensures NonNegative(Amounts(fmt, few)) && Sum(Amounts(fmt, few)) <= Sum(Amounts(fmt, many))
    ensures forall scope :: Sum(ScopeAmounts(fmt, few, scope)) <= Sum(ScopeAmounts(fmt, many, scope))
  {
    hide Decode;
    SumSubmap(Amounts(fmt, few), Amounts(fmt, many));
    forall scope ensures Sum(ScopeAmounts(fmt, few, scope)) <= Sum(ScopeAmounts(fmt, many, scope)) {
      SumSubmap(ScopeAmounts(fmt, few, scope), ScopeAmounts(fmt, many, scope));
    }
  }

  lemma FewerFieldsWithin(fmt: NumberFormat, few: map<LeaseId, string>, many: map<LeaseId, string>, limits: GrantedLimits, pool: string)
    requires forall i :: i in few ==> i in many && few[i] == many[i]
    requires FieldsWithin(fmt, many, limits, pool)
    ensures FieldsWithin(fmt, few, limits, pool)
  {
    hide Amounts, ScopeAmounts, PoolLimit, ScopeLimit, NonNegative;
    FewerFieldsHoldLess(fmt, few, many);
  }

  /** A new field raises the sums by at most its amount. */
  lemma NewFieldAdds(fmt: NumberFormat, fields: map<LeaseId, string>, i: LeaseId, text: string)
    requires NonNegative(Amounts(fmt, fields)) && Decode(fmt, text).amount >= 0.0
    ensures
      var amount, after := Decode(fmt, text).amount, fields[i := text];
      && NonNegative(Amounts(fmt, after)) && Sum(Amounts(fmt, after)) <= Sum(Amounts(fmt, fields)) + amount
      && forall scope :: Sum(ScopeAmounts(fmt, after, scope)) <=
                         Sum(ScopeAmounts(fmt, fields, scope)) + if Decode(fmt, text).scope == scope then amount else 0.0
  {
    hide Decode;
    var rest := fields - {i};
    FewerFieldsHoldLess(fmt, rest, fields);
    assert fields[i := text] == rest[i := text];
    AddField(fmt, rest, i, text, "");
    forall scope { AddField(fmt, rest, i, text, scope); }
  }

  /** Restamping changes neither amount nor scope, so no sum changes. */
  lemma RestampKeepsSums(fmt: NumberFormat, fields: map<LeaseId, string>, i: LeaseId, expiry: nat)
    requires i in fields
    ensures Amounts(fmt, fields[i := Restamped(fields[i], expiry)]) == Amounts(fmt, fields)
    ensures forall scope :: ScopeAmounts(fmt, fields[i := Restamped(fields[i], expiry)], scope) == ScopeAmounts(fmt, fields, scope)
  {
    var text := fields[i];
    AmountHasNoColon(text);
    DigitsNoColon(expiry);
    SplitJoin(AmountText(text), Digits(expiry), ScopeText(text));
    hide Join, AmountText, ExpiryText, ScopeText, Digits;
    assert Decode(fmt, Restamped(text, expiry)).amount == Decode(fmt, text).amount;
    assert Decode(fmt, Restamped(text, expiry)).scope == Decode(fmt, text).scope;
  }

  lemma GrantWithin(fmt: NumberFormat, live: map<LeaseId, string>, a: ReserveArgs, limits: GrantedLimits, limits': GrantedLimits, pool: string)
    requires FieldsWithin(fmt, live, limits, pool) && Accepts(fmt, live, a) && a.units >= 0.0
    requires NoColon(fmt.show(a.units)) && NoColon(fmt.show(a.expiry as real)) && fmt.read(fmt.show(a.units)) >= 0.0
    requires limits' == GrantedLimits(limits.pools[pool := a.limit + Excess(fmt, a.units)],
                                      limits.scopes[(pool, a.scope) := a.scopeLimit + Excess(fmt, a.units)])
    ensures FieldsWithin(fmt, live[a.lease := Join(fmt.show(a.units), fmt.show(a.expiry as real), a.scope)], limits', pool)
  {
    var text := Join(fmt.show(a.units), fmt.show(a.expiry as real), a.scope);
    SplitJoin(fmt.show(a.units), fmt.show(a.expiry as real), a.scope);
    assert Decode(fmt, text).amount == fmt.read(fmt.show(a.units)) && Decode(fmt, text).scope == a.scope;
    assert fmt.read(fmt.show(a.units)) <= a.units + Excess(fmt, a.units);
    hide Join, Decode, Amounts, ScopeAmounts, NonNegative, Excess;
    NewFieldAdds(fmt, live, a.lease, text);
  }

  lemma CallKeepsWithin(fmt: NumberFormat, namespace: string, server: Server, limits: GrantedLimits, t: Timed)
    requires FieldsWithin(fmt, Stored(server, Key(namespace, t.call.op.pool)), limits, t.call.op.pool) && Writes(fmt, t.call)
    ensures FieldsWithin(fmt, Stored(NextAt(fmt, namespace, server, t.call, t.at), Key(namespace, t.call.op.pool)),
                         SharedLimits(fmt, namespace, server, limits, t, true), t.call.op.pool)
  {
    hide Key, FieldsWithin, Decode, Accepts, Restamped, Join, NoColon, Excess;
    var e := t.call;
    var key, pool := Key(namespace, e.op.pool), e.op.pool;
    var stored, fields := Stored(server, key), Fields(server, key, t.at);
    FewerFieldsWithin(fmt, fields, stored, limits, pool);
    match e.op
    case Release(_, id) =>
      FewerFieldsWithin(fmt, fields - {id}, fields, limits, pool);
    case Renew(_, id, ttl) =>
      if id in fields {
        RestampKeepsSums(fmt, fields, id, e.now + ttl);
        SameSumsWithin(fmt, fields, fields[id := Restamped(fields[id], e.now + ttl)], limits, pool);
      }
    case _ =>
      var a := Args(e.op, e.now);
      if ValidArgs(a) {
        var live := LiveFields(fmt, fields, e.now);
        FewerFieldsWithin(fmt, live, fields, limits, pool);
        if Accepts(fmt, live, a) { GrantWithin(fmt, live, a, limits, SharedLimits(fmt, namespace, server, limits, t, true), pool); }
      }
  }

  lemma SameSumsWithin(fmt: NumberFormat, fields: map<LeaseId, string>, fields': map<LeaseId, string>, limits: GrantedLimits, pool: string)
    requires FieldsWithin(fmt, fields, limits, pool) && Amounts(fmt, fields') == Amounts(fmt, fields)
    requires forall scope :: ScopeAmounts(fmt, fields', scope) == ScopeAmounts(fmt, fields, scope)
    ensures FieldsWithin(fmt, fields', limits, pool)
  {
    hide Amounts, ScopeAmounts, NonNegative;
  }

  lemma OtherPoolsWithin(fmt: NumberFormat, namespace: string, server: Server, limits: GrantedLimits, t: Timed, pool: string)
    requires pool != t.call.op.pool && FieldsWithin(fmt, Stored(server, Key(namespace, pool)), limits, pool)
    ensures FieldsWithin(fmt, Stored(NextAt(fmt, namespace, server, t.call, t.at), Key(namespace, pool)),
                         SharedLimits(fmt, namespace, server, limits, t, true), pool)
  {
    hide Amounts, ScopeAmounts, NonNegative, LiveFields, Accepts, Join, Key, AnswerAt, Excess;
    if Key(namespace, pool) == Key(namespace, t.call.op.pool) { KeyInjective(namespace, pool, t.call.op.pool); }
  }

  // ---------------------------------------------------------------------------------------- every run

  ghost function Run(fmt: NumberFormat, namespace: string, server: Server, ts: seq<Timed>): Server
    decreases |ts|
  {
    if ts == [] then server else Run(fmt, namespace, NextAt(fmt, namespace, server, ts[0].call, ts[0].at), ts[1..])
  }

  ghost function RunSharedLimits(fmt: NumberFormat, namespace: string, server: Server, limits: GrantedLimits, ts: seq<Timed>, excess: bool): GrantedLimits
    decreases |ts|
  {
    if ts == [] then limits
    else RunSharedLimits(fmt, namespace, NextAt(fmt, namespace, server, ts[0].call, ts[0].at),
                         SharedLimits(fmt, namespace, server, limits, ts[0], excess), ts[1..], excess)
  }

  ghost predicate AllWithin(fmt: NumberFormat, namespace: string, server: Server, limits: GrantedLimits)
  {
    forall pool :: FieldsWithin(fmt, Stored(server, Key(namespace, pool)), limits, pool)
  }

  lemma {:induction false} RunWithin(fmt: NumberFormat, namespace: string, server: Server, limits: GrantedLimits, ts: seq<Timed>)
    requires AllWithin(fmt, namespace, server, limits) && forall i :: 0 <= i < |ts| ==> Writes(fmt, ts[i].call)
    ensures AllWithin(fmt, namespace, Run(fmt, namespace, server, ts), RunSharedLimits(fmt, namespace, server, limits, ts, true))
    decreases |ts|
  {
    hide FieldsWithin, Stored, Key, NextAt, SharedLimits, Writes;
    if ts != [] {
      var t := ts[0];
      var server', limits' := NextAt(fmt, namespace, server, t.call, t.at), SharedLimits(fmt, namespace, server, limits, t, true);
      forall pool ensures FieldsWithin(fmt, Stored(server', Key(namespace, pool)), limits', pool) {
        assert FieldsWithin(fmt, Stored(server, Key(namespace, pool)), limits, pool);
        if pool == t.call.op.pool {
          CallKeepsWithin(fmt, namespace, server, limits, t);
        } else {
          OtherPoolsWithin(fmt, namespace, server, limits, t, pool);
        }
      }
      assert forall i :: 0 <= i < |ts[1..]| ==> ts[1..][i] == ts[i + 1];
      RunWithin(fmt, namespace, server', limits', ts[1..]);
    }
  }

  lemma {:induction false} NoExcess(fmt: NumberFormat, namespace: string, server: Server, limits: GrantedLimits, ts: seq<Timed>)
    requires forall i :: 0 <= i < |ts| ==> NeverReadsMore(fmt, ts[i].call)
    ensures RunSharedLimits(fmt, namespace, server, limits, ts, true) == RunSharedLimits(fmt, namespace, server, limits, ts, false)
    decreases |ts|
  {
    hide NextAt, Accepts;
    if ts != [] {
      assert NeverReadsMore(fmt, ts[0].call);
      assert forall i :: 0 <= i < |ts[1..]| ==> ts[1..][i] == ts[i + 1];
      NoExcess(fmt, namespace, NextAt(fmt, namespace, server, ts[0].call, ts[0].at), SharedLimits(fmt, namespace, server, limits, ts[0], true), ts[1..]);
    }
  }

  /** Every run, with skewed or backward clocks of callers and server, any lifetimes, any scopes and renewals at
      any time: the fields that a pool stores never add up to more than the limit of its latest grant and what
      that grant's own amount was rounded up, nor those of a scope to more than the scope limit of its latest
      grant and that. */
  lemma SharedPoolWithinLimit(fmt: NumberFormat, namespace: string, ts: seq<Timed>, pool: string, scope: string)
    requires forall i :: 0 <= i < |ts| ==> Writes(fmt, ts[i].call)
    ensures
      var fields := Stored(Run(fmt, namespace, map[], ts), Key(namespace, pool));
      var limits := RunSharedLimits(fmt, namespace, map[], GrantedLimits(map[], map[]), ts, true);
      && NonNegative(Amounts(fmt, fields))
      && Sum(Amounts(fmt, fields)) <= PoolLimit(limits, pool)
      && Sum(ScopeAmounts(fmt, fields, scope)) <= ScopeLimit(limits, pool, scope)
  {
    var none := GrantedLimits(map[], map[]);
    forall p ensures FieldsWithin(fmt, Stored(map[], Key(namespace, p)), none, p) { NothingWithin(fmt, p); }
    RunWithin(fmt, namespace, map[], none, ts);
    assert FieldsWithin(fmt, Stored(Run(fmt, namespace, map[], ts), Key(namespace, pool)), RunSharedLimits(fmt, namespace, map[], none, ts, true), pool);
  }

  /** Where no amount is read back as more than was written, the limits themselves hold. */
  lemma SharedPoolWithinExactLimit(fmt: NumberFormat, namespace: string, ts: seq<Timed>, pool: string, scope: string)
    requires forall i :: 0 <= i < |ts| ==> Writes(fmt, ts[i].call) && NeverReadsMore(fmt, ts[i].call)
    ensures
      var fields := Stored(Run(fmt, namespace, map[], ts), Key(namespace, pool));
      var limits := RunSharedLimits(fmt, namespace, map[], GrantedLimits(map[], map[]), ts, false);
      && Sum(Amounts(fmt, fields)) <= PoolLimit(limits, pool)
      && Sum(ScopeAmounts(fmt, fields, scope)) <= ScopeLimit(limits, pool, scope)
  {
    hide Run, RunSharedLimits, Writes, NeverReadsMore, Amounts, ScopeAmounts, PoolLimit, ScopeLimit;
    SharedPoolWithinLimit(fmt, namespace, ts, pool, scope);
    NoExcess(fmt, namespace, map[], GrantedLimits(map[], map[]), ts);
  }

  lemma NothingWithin(fmt: NumberFormat, pool: string)
    ensures FieldsWithin(fmt, map[], GrantedLimits(map[], map[]), pool)
  {
    forall scope ensures Sum(ScopeAmounts(fmt, map[], scope)) == 0.0 { NoFields(fmt, scope); }
    NoFields(fmt, "");
    assert Amounts(fmt, map[]) == map[];
  }
}
