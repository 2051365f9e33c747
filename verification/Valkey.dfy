/** The shared lease coordinator: every pool is a Valkey hash whose fields hold
    `amount:expiry:scope` texts, updated by scripts that the server runs atomically. */
module Valkey {
  import opened Sums
  import C = Coordinator

  type LeaseId = C.LeaseId
  type Event = C.Event
  type Answer = C.Answer

  /** How the script language writes numbers and reads them back. */
  datatype NumberFormat = NumberFormat(show: real -> string, read: string -> real)

  datatype Hash = Hash(fields: map<LeaseId, string>, expireAt: nat)

  type Server = map<string, Hash>

  datatype Field = Field(amount: real, expires: real, scope: string)

  // ------------------------------------------------------------------------------ the field text

  /** The first colon at or after `from`, or the end of the text. */
  function Find(text: string, from: nat): (at: nat)
    requires from <= |text|
    ensures from <= at <= |text|
    ensures forall i :: from <= i < at ==> text[i] != ':'
    ensures at < |text| ==> text[at] == ':'
    decreases |text| - from
  {
    if from == |text| || text[from] == ':' then from else Find(text, from + 1)
  }

  function After(text: string, at: nat): nat { if at < |text| then at + 1 else |text| }

  function AmountText(text: string): string { text[..Find(text, 0)] }

  function ExpiryText(text: string): string
  {
    var start := After(text, Find(text, 0));
    text[start..Find(text, start)]
  }

  function ScopeText(text: string): string
  {
    text[After(text, Find(text, After(text, Find(text, 0))))..]
  }

  function Join(amount: string, expiry: string, scope: string): string
  {
    amount + ":" + expiry + ":" + scope
  }

  function Decode(fmt: NumberFormat, text: string): Field
  {
    Field(fmt.read(AmountText(text)), fmt.read(ExpiryText(text)), ScopeText(text))
  }

  predicate NoColon(text: string) { forall i :: 0 <= i < |text| ==> text[i] != ':' }

  /** The three parts come back exactly, even when the scope itself contains colons. */
  lemma SplitJoin(amount: string, expiry: string, scope: string)
    requires NoColon(amount) && NoColon(expiry)
    ensures
      var text := Join(amount, expiry, scope);
      AmountText(text) == amount && ExpiryText(text) == expiry && ScopeText(text) == scope
  {
    var text := Join(amount, expiry, scope);
    var sep := |amount|;
    assert text[sep] == ':' && forall i :: 0 <= i < sep ==> text[i] == amount[i];
    assert Find(text, 0) == sep;
    var sep2 := sep + 1 + |expiry|;
    assert text[sep2] == ':' && forall i :: sep + 1 <= i < sep2 ==> text[i] == expiry[i - sep - 1];
    assert Find(text, sep + 1) == sep2;
  }

  lemma AmountHasNoColon(text: string)
    ensures NoColon(AmountText(text))
  {
  }

  /** Writing a number and reading it back gives the number, and the text has no colon in it. */
  ghost predicate Exact(fmt: NumberFormat, x: real)
  {
    fmt.read(fmt.show(x)) == x && NoColon(fmt.show(x))
  }

  /** The decimal text of a natural number. */
  function Digits(n: nat): string
  {
    if n < 10 then [Digit(n)] else Digits(n / 10) + [Digit(n % 10)]
  }

  function Digit(d: nat): char
    requires d < 10
  {
    ['0', '1', '2', '3', '4', '5', '6', '7', '8', '9'][d]
  }

  lemma {:induction false} DigitsNoColon(n: nat)
    ensures NoColon(Digits(n)) && Digits(n) != []
  {
    if n >= 10 { DigitsNoColon(n / 10); }
  }

  // ----------------------------------------------------------------------------------- the scripts

  /** A key whose time has come on the server's clock reads as if it were not there. */
  function Fields(server: Server, key: string, at: nat): map<LeaseId, string>
  {
    if key in server && at < server[key].expireAt then server[key].fields else map[]
  }

  function LiveFields(fmt: NumberFormat, fields: map<LeaseId, string>, now: nat): map<LeaseId, string>
  {
    map i | i in fields && Decode(fmt, fields[i]).expires > now as real :: fields[i]
  }

  function Amounts(fmt: NumberFormat, fields: map<LeaseId, string>): map<LeaseId, real>
  {
    map i | i in fields :: Decode(fmt, fields[i]).amount
  }

  function ScopeAmounts(fmt: NumberFormat, fields: map<LeaseId, string>, scope: string): map<LeaseId, real>
  {
    map i | i in fields && Decode(fmt, fields[i]).scope == scope :: Decode(fmt, fields[i]).amount
  }

  datatype ReserveArgs = ReserveArgs(now: nat, limit: real, units: real, lease: LeaseId, expiry: nat, scope: string, scopeLimit: real)

  ghost predicate Accepts(fmt: NumberFormat, live: map<LeaseId, string>, a: ReserveArgs)
  {
    && Sum(Amounts(fmt, live)) + a.units <= a.limit
    && Sum(ScopeAmounts(fmt, live, a.scope)) + a.units <= a.scopeLimit
  }

  function KeyTtl(a: ReserveArgs): nat
  {
    if a.expiry + 1000 - a.now > 1000 then a.expiry + 1000 - a.now else 1000
  }

  /** A hash that has lost its last field is gone. */
  function Put(server: Server, key: string, fields: map<LeaseId, string>, expireAt: nat): Server
  {
    if fields == map[] then server - {key} else server[key := Hash(fields, expireAt)]
  }

  /** Fields expire by the caller's clock, the key by the server's. */
  ghost function Reserved(fmt: NumberFormat, server: Server, key: string, a: ReserveArgs, at: nat): Server
  {
    var live := LiveFields(fmt, Fields(server, key, at), a.now);
    if Accepts(fmt, live, a) then
      server[key := Hash(live[a.lease := Join(fmt.show(a.units), fmt.show(a.expiry as real), a.scope)], at + KeyTtl(a))]
    else
      Put(server, key, live, if key in server then server[key].expireAt else 0)
  }

  function Restamped(text: string, expiry: nat): string
  {
    Join(AmountText(text), Digits(expiry), ScopeText(text))
  }

  class ValkeyServer {
    var keys: Server

    constructor ()
      ensures keys == map[]
    {
      keys := map[];
    }

    /** One pass over the hash: an expired field is deleted, any other is added to what is used. */
    method ReserveScript(fmt: NumberFormat, key: string, a: ReserveArgs, at: nat) returns (accepted: bool)
      modifies this
      ensures accepted <==> Accepts(fmt, LiveFields(fmt, Fields(old(keys), key, at), a.now), a)
      ensures keys == Reserved(fmt, old(keys), key, a, at)
    {
      var entries := Fields(keys, key, at);
      var expireAt := if key in keys then keys[key].expireAt else 0;
      var live, used, scopeUsed := PurgeAndSum(fmt, entries, a.now, a.scope);
      keys := Put(keys, key, live, expireAt);
      if used + a.units > a.limit || scopeUsed + a.units > a.scopeLimit { return false; }
      var text := fmt.show(a.units) + ":" + fmt.show(a.expiry as real) + ":" + a.scope;
      keys := keys[key := Hash(live[a.lease := text], at + KeyTtl(a))];
      assert keys == Reserved(fmt, old(keys), key, a, at);
      return true;
    }

    method RenewScript(key: string, lease: LeaseId, expiry: nat, keyTtl: nat, at: nat) returns (found: bool)
      modifies this
      ensures found <==> lease in Fields(old(keys), key, at)
      ensures keys == if found then old(keys)[key := Hash(old(keys)[key].fields[lease := Restamped(old(keys)[key].fields[lease], expiry)], at + keyTtl)]
                      else old(keys)
    {
      var fields := Fields(keys, key, at);
      if lease !in fields { return false; }
      var value := fields[lease];
      var sep := Find(value, 0);
      var sep2 := Find(value, After(value, sep));
      var text := value[..sep] + ":" + Digits(expiry) + ":" + value[After(value, sep2)..];
      keys := keys[key := Hash(fields[lease := text], at + keyTtl)];
      return true;
    }

    method DeleteField(key: string, lease: LeaseId, at: nat)
      modifies this
      ensures keys == Put(old(keys), key, Fields(old(keys), key, at) - {lease}, if key in old(keys) then old(keys)[key].expireAt else 0)
    {
      keys := Put(keys, key, Fields(keys, key, at) - {lease}, if key in keys then keys[key].expireAt else 0);
    }
  }

  method Split(fmt: NumberFormat, text: string) returns (amount: real, expires: real, scope: string)
    ensures Field(amount, expires, scope) == Decode(fmt, text)
  {
    var sep := Find(text, 0);
    amount := fmt.read(text[..sep]);
    var sep2 := Find(text, After(text, sep));
    expires := fmt.read(text[After(text, sep)..sep2]);
    scope := text[After(text, sep2)..];
  }

  method PurgeAndSum(fmt: NumberFormat, entries: map<LeaseId, string>, now: nat, scope: string)
    returns (live: map<LeaseId, string>, used: real, scopeUsed: real)
    ensures live == LiveFields(fmt, entries, now)
    ensures used == Sum(Amounts(fmt, live)) && scopeUsed == Sum(ScopeAmounts(fmt, live, scope))
  {
    hide Decode, Amounts, ScopeAmounts;
    NoFields(fmt, scope);
    live, used, scopeUsed := entries, 0.0, 0.0;
    ghost var all := LiveFields(fmt, entries, now);
    var todo := entries.Keys;
    ghost var seen := map[];
    while todo != {}
      invariant todo <= entries.Keys
      invariant live.Keys == all.Keys + todo && forall i :: i in live ==> live[i] == entries[i]
      invariant seen.Keys == all.Keys - todo && forall i :: i in seen ==> seen[i] == entries[i]
      invariant used == Sum(Amounts(fmt, seen)) && scopeUsed == Sum(ScopeAmounts(fmt, seen, scope))
      decreases todo
    {
      var i :| i in todo;
      todo := todo - {i};
      var amount, expires, entryScope := Split(fmt, entries[i]);
      if expires <= now as real {
        live := live - {i};
      } else {
        AddField(fmt, seen, i, entries[i], scope);
        seen := seen[i := entries[i]];
        used := used + amount;
        if entryScope == scope { scopeUsed := scopeUsed + amount; }
      }
    }
    assert seen == all && live == all;
  }

  lemma NoFields(fmt: NumberFormat, scope: string)
    ensures Sum(Amounts(fmt, map[])) == 0.0 && Sum(ScopeAmounts(fmt, map[], scope)) == 0.0
  {
    assert Amounts(fmt, map[]) == map[] && ScopeAmounts(fmt, map[], scope) == map[];
  }

  lemma AddField(fmt: NumberFormat, fields: map<LeaseId, string>, i: LeaseId, text: string, scope: string)
    requires i !in fields
    ensures Sum(Amounts(fmt, fields[i := text])) == Sum(Amounts(fmt, fields)) + Decode(fmt, text).amount
    ensures Sum(ScopeAmounts(fmt, fields[i := text], scope)) ==
            Sum(ScopeAmounts(fmt, fields, scope)) + if Decode(fmt, text).scope == scope then Decode(fmt, text).amount else 0.0
  {
    hide Decode;
    var amount := Decode(fmt, text).amount;
    assert Amounts(fmt, fields[i := text]) == Amounts(fmt, fields)[i := amount];
    SumInsert(Amounts(fmt, fields), i, amount);
    if Decode(fmt, text).scope == scope {
      assert ScopeAmounts(fmt, fields[i := text], scope) == ScopeAmounts(fmt, fields, scope)[i := amount];
      SumInsert(ScopeAmounts(fmt, fields, scope), i, amount);
    } else {
      assert ScopeAmounts(fmt, fields[i := text], scope) == ScopeAmounts(fmt, fields, scope);
    }
  }

  // ---------------------------------------------------------------------------- the coordinator

  function Key(namespace: string, pool: string): string { namespace + ":leases:" + pool }

  lemma KeyInjective(namespace: string, pool: string, pool': string)
    requires Key(namespace, pool) == Key(namespace, pool')
    ensures pool == pool'
  {
    var n := |namespace + ":leases:"|;
    assert Key(namespace, pool)[n..] == pool && Key(namespace, pool')[n..] == pool';
  }

  function Args(op: C.Op, now: nat): ReserveArgs
    requires op.Reserve? || op.ReserveScoped?
  {
    if op.Reserve? then ReserveArgs(now, op.limit, op.units, op.id, now + op.ttl, "", op.limit)
    else ReserveArgs(now, op.limit, op.units, op.id, now + op.ttl, op.scope, op.scopeLimit)
  }

  predicate ValidArgs(a: ReserveArgs) { a.limit >= 0.0 && a.scopeLimit >= 0.0 && a.units >= 0.0 }

  /** A call of a caller whose clock reads `e.now`, made while the server's clock reads `at`. */
  ghost function AnswerAt(fmt: NumberFormat, namespace: string, server: Server, e: Event, at: nat): Answer
  {
    var key := Key(namespace, e.op.pool);
    match e.op
    case Release(_, _) => C.Released
    case Renew(_, id, _) => C.Renewed(id in Fields(server, key, at))
    case _ =>
      var a := Args(e.op, e.now);
      if !ValidArgs(a) then C.Invalid
      else if Accepts(fmt, LiveFields(fmt, Fields(server, key, at), e.now), a) then C.Granted
      else C.Refused
  }

  ghost function NextAt(fmt: NumberFormat, namespace: string, server: Server, e: Event, at: nat): Server
  {
    var key := Key(namespace, e.op.pool);
    var fields := Fields(server, key, at);
    match e.op
    case Release(_, id) => Put(server, key, fields - {id}, if key in server then server[key].expireAt else 0)
    case Renew(_, id, ttl) =>
      if id in fields then
        server[key := Hash(server[key].fields[id := Restamped(server[key].fields[id], e.now + ttl)], at + ttl + 1000)]
      else server
    case _ =>
      var a := Args(e.op, e.now);
      if ValidArgs(a) then Reserved(fmt, server, key, a, at) else server
  }

  /** The same with one clock for caller and server. */
  ghost function AnswerTo(fmt: NumberFormat, namespace: string, server: Server, e: Event): Answer
  {
    AnswerAt(fmt, namespace, server, e, e.now)
  }

  ghost function Next(fmt: NumberFormat, namespace: string, server: Server, e: Event): Server
  {
    NextAt(fmt, namespace, server, e, e.now)
  }

  /** One coordinator call against the server. */
  method Call(fmt: NumberFormat, namespace: string, server: ValkeyServer, e: Event, at: nat) returns (answer: Answer)
    modifies server
    ensures answer == AnswerAt(fmt, namespace, old(server.keys), e, at)
    ensures server.keys == NextAt(fmt, namespace, old(server.keys), e, at)
  {
    var key := Key(namespace, e.op.pool);
    match e.op
    case Release(_, id) =>
      server.DeleteField(key, id, at);
      return C.Released;
    case Renew(_, id, ttl) =>
      var found := server.RenewScript(key, id, e.now + ttl, ttl + 1000, at);
      return C.Renewed(found);
    case _ =>
      var a := Args(e.op, e.now);
      if a.limit < 0.0 || a.scopeLimit < 0.0 || a.units < 0.0 { return C.Invalid; }
      var accepted := server.ReserveScript(fmt, key, a, at);
      return if accepted then C.Granted else C.Refused;
  }
}
