/** Each condition under which the two coordinators were shown to answer alike is needed, and where
    it fails is stated exactly. Also a number format that writes every whole number exactly. */
module ValkeyLimits {
  import opened Sums
  import opened Valkey
  import opened ValkeyRefinement
  import CoordinatorRuns
  import ValkeyHardLimit
  import C = Coordinator

  const POOL := "pool"

  function First(limit: real, units: real, ttl: nat): Event { C.Event(C.Reserve(POOL, limit, units, ttl, 0), 0) }

  function FirstText(fmt: NumberFormat, units: real, ttl: nat): string
  {
    Join(fmt.show(units), fmt.show(ttl as real), "")
  }

  ghost predicate Writable(fmt: NumberFormat, units: real, ttl: nat)
  {
    NoColon(fmt.show(units)) && Exact(fmt, ttl as real)
  }

  lemma OneLease(units: real, ttl: nat, now: nat)
    ensures
      var leases: C.Leases := map[0 := C.Entry(units, ttl, None)];
      && (now < ttl ==> C.Purge(leases, now) == leases) && (now >= ttl ==> C.Purge(leases, now) == map[])
      && C.Used(leases) == units
      && forall scope :: C.ScopeUsed(leases, scope) == 0.0
  {
    var leases: C.Leases := map[0 := C.Entry(units, ttl, None)];
    assert C.AllUnits(leases) == map[][0 := units];
    SumInsert(map[], 0 as LeaseId, units);
    forall scope ensures C.ScopeUsed(leases, scope) == 0.0 { assert C.ScopeUnits(leases, scope) == map[]; }
  }

  lemma OneField(fmt: NumberFormat, units: real, ttl: nat, now: nat)
    requires Writable(fmt, units, ttl)
    ensures
      var fields: map<LeaseId, string> := map[0 := FirstText(fmt, units, ttl)];
      && (now < ttl ==> LiveFields(fmt, fields, now) == fields) && (now >= ttl ==> LiveFields(fmt, fields, now) == map[])
      && Sum(Amounts(fmt, fields)) == fmt.read(fmt.show(units))
      && forall scope :: Sum(ScopeAmounts(fmt, fields, scope)) == if scope == "" then fmt.read(fmt.show(units)) else 0.0
  {
    var text := FirstText(fmt, units, ttl);
    SplitJoin(fmt.show(units), fmt.show(ttl as real), "");
    hide Join, AmountText, ExpiryText, ScopeText;
    assert Decode(fmt, text) == Field(fmt.read(fmt.show(units)), ttl as real, "");
    var none: map<LeaseId, string> := map[];
    assert none[0 := text] == map[0 := text];
    forall scope ensures Sum(ScopeAmounts(fmt, map[0 := text], scope)) == if scope == "" then fmt.read(fmt.show(units)) else 0.0 {
      NoFields(fmt, scope);
      AddField(fmt, none, 0, text, scope);
    }
    NoFields(fmt, "");
    AddField(fmt, none, 0, text, "");
  }

  /** Both coordinators after one grant out of an empty pool. */
  lemma AfterFirst(fmt: NumberFormat, namespace: string, limit: real, units: real, ttl: nat)
    requires 0.0 <= units <= limit
    ensures C.AnswerTo(map[], First(limit, units, ttl)) == C.Granted == AnswerTo(fmt, namespace, map[], First(limit, units, ttl))
    ensures C.Next(map[], First(limit, units, ttl)) == map[POOL := map[0 := C.Entry(units, ttl, None)]]
    ensures Next(fmt, namespace, map[], First(limit, units, ttl)) ==
            map[Key(namespace, POOL) := Hash(map[0 := FirstText(fmt, units, ttl)], ttl + 1000)]
  {
    hide Decode, Join, Key;
    assert C.Purge(map[], 0) == map[] && LiveFields(fmt, map[], 0) == map[];
    assert C.AllUnits(map[]) == map[];
    NoFields(fmt, "");
  }

  lemma TwoEvents(fmt: NumberFormat, namespace: string, first: Event, second: Event)
    ensures SameAnswers(fmt, namespace, map[], map[], [first, second]) <==>
              && SameAnswer(first.op, C.AnswerTo(map[], first), AnswerTo(fmt, namespace, map[], first))
              && SameAnswer(second.op, C.AnswerTo(C.Next(map[], first), second),
                            AnswerTo(fmt, namespace, Next(fmt, namespace, map[], first), second))
  {
    hide SameAnswer, C.AnswerTo, AnswerTo, C.Next, Next;
    OneEvent(fmt, namespace, C.Next(map[], first), Next(fmt, namespace, map[], first), second);
    assert [first, second][1..] == [second];
  }

  lemma OneEvent(fmt: NumberFormat, namespace: string, mem: C.Store, server: Server, e: Event)
    ensures SameAnswers(fmt, namespace, mem, server, [e]) <==>
              SameAnswer(e.op, C.AnswerTo(mem, e), AnswerTo(fmt, namespace, server, e))
  {
    assert [e][1..] == [];
    assert SameAnswers(fmt, namespace, C.Next(mem, e), Next(fmt, namespace, server, e), []);
  }

  /** What a later reserve is told while the first lease lasts. */
  lemma SecondReserve(fmt: NumberFormat, namespace: string, units: real, ttl: nat, op: C.Op)
    requires op.Reserve? || op.ReserveScoped?
    requires Writable(fmt, units, ttl) && ttl > 0 && op.pool == POOL && op.units >= 0.0 && op.limit >= 0.0
    requires op.ReserveScoped? ==> op.scopeLimit >= 0.0
    ensures
      C.AnswerTo(map[POOL := map[0 := C.Entry(units, ttl, None)]], C.Event(op, 0)) ==
      if units + op.units <= op.limit && (op.ReserveScoped? ==> op.units <= op.scopeLimit) then C.Granted else C.Refused
    ensures
      var stored := fmt.read(fmt.show(units));
      var scoped := if Args(op, 0).scope == "" then stored else 0.0;
      AnswerTo(fmt, namespace, map[Key(namespace, POOL) := Hash(map[0 := FirstText(fmt, units, ttl)], ttl + 1000)], C.Event(op, 0)) ==
      if stored + op.units <= op.limit && scoped + op.units <= Args(op, 0).scopeLimit then C.Granted else C.Refused
  {
    hide Decode, FirstText, Key, LiveFields, C.Purge, C.Used, C.ScopeUsed, Writable, Amounts, ScopeAmounts;
    OneLease(units, ttl, 0);
    OneField(fmt, units, ttl, 0);
  }

  /** A two-call run whose second call is answered alike by both coordinators exactly when the
      amount of the first survives being written and read back. Lua writes fourteen significant
      digits, so an amount with more of them does not. */
  lemma AmountMustSurvive(fmt: NumberFormat, namespace: string, units: real, ttl: nat)
    requires units >= 0.0 && ttl > 0 && Writable(fmt, units, ttl)
    ensures
      var stored := fmt.read(fmt.show(units));
      var limit := if stored > units then stored else units;
      var gap := if stored > units then stored - units else units - stored;
      SameAnswers(fmt, namespace, map[], map[], [First(limit, units, ttl), C.Event(C.Reserve(POOL, limit, gap, ttl, 1), 0)])
      <==> stored == units
  {
    hide C.AnswerTo, AnswerTo, C.Next, Next, Key, FirstText, SameAnswers, Writable;
    var stored := fmt.read(fmt.show(units));
    var limit := if stored > units then stored else units;
    var gap := if stored > units then stored - units else units - stored;
    var second := C.Event(C.Reserve(POOL, limit, gap, ttl, 1), 0);
    TwoEvents(fmt, namespace, First(limit, units, ttl), second);
    AfterFirst(fmt, namespace, limit, units, ttl);
    SecondReserve(fmt, namespace, units, ttl, second.op);
  }

  /** What fourteen significant digits leave of an amount between 1 and 10: thirteen decimals. */
  ghost predicate FourteenDigits(fmt: NumberFormat)
  {
    forall x :: 1.0 <= x < 10.0 ==> OnGrid(fmt.read(fmt.show(x)))
  }

  predicate OnGrid(x: real) { (x * 10000000000000.0).Floor as real == x * 10000000000000.0 }

  /** In the number format of the script, every amount between 1 and 10 with more than thirteen decimals is
      lost: the two coordinators then differ on the two calls. */
  lemma LongAmountsDiffer(fmt: NumberFormat, namespace: string, units: real, ttl: nat)
    requires FourteenDigits(fmt) && 1.0 <= units < 10.0 && !OnGrid(units) && ttl > 0 && Writable(fmt, units, ttl)
    ensures
      var stored := fmt.read(fmt.show(units));
      var limit := if stored > units then stored else units;
      var gap := if stored > units then stored - units else units - stored;
      !SameAnswers(fmt, namespace, map[], map[], [First(limit, units, ttl), C.Event(C.Reserve(POOL, limit, gap, ttl, 1), 0)])
  {
    hide SameAnswers, OnGrid;
    AmountMustSurvive(fmt, namespace, units, ttl);
  }

  /** One such amount. */
  lemma OneLongAmount()
    ensures 1.0 <= 1.00000000000005 < 10.0 && !OnGrid(1.00000000000005)
  {
    assert 1.00000000000005 * 10000000000000.0 == 10000000000000.5;
    assert 10000000000000.5.Floor == 10000000000000;
  }

  /** A single grant of a whole pool overfills it if and only if the amount is read back as more. */
  lemma LimitNeedsNoMoreReadBack(fmt: NumberFormat, namespace: string, units: real, ttl: nat)
    requires units >= 0.0 && Writable(fmt, units, ttl)
    ensures
      var fields := ValkeyHardLimit.Stored(Next(fmt, namespace, map[], First(units, units, ttl)), Key(namespace, POOL));
      Sum(Amounts(fmt, fields)) <= units <==> fmt.read(fmt.show(units)) <= units
  {
    hide Next, Key, Amounts, FirstText;
    AfterFirst(fmt, namespace, units, units, ttl);
    OneField(fmt, units, ttl, 0);
  }

  /** Fourteen significant digits, rounded to the nearest. */
  ghost predicate NearestFourteen(fmt: NumberFormat)
  {
    FourteenDigits(fmt) &&
    forall x {:trigger fmt.show(x)} :: 1.0 <= x < 10.0 ==> -0.00000000000005 <= fmt.read(fmt.show(x)) - x <= 0.00000000000005
  }

  /** Rounded to the nearest, 1.00000000000007 is read back as 1.0000000000001, and one grant of it overfills a
      pool of that size. */
  lemma RoundedUpOverfills(fmt: NumberFormat, namespace: string, ttl: nat)
    requires NearestFourteen(fmt) && Writable(fmt, 1.00000000000007, ttl)
    ensures fmt.read(fmt.show(1.00000000000007)) == 1.0000000000001
    ensures
      var fields := ValkeyHardLimit.Stored(Next(fmt, namespace, map[], First(1.00000000000007, 1.00000000000007, ttl)), Key(namespace, POOL));
      Sum(Amounts(fmt, fields)) > 1.00000000000007
  {
    var x := 1.00000000000007;
    NearestAbove(fmt.read(fmt.show(x)));
    hide Next, Key, Amounts, FirstText;
    LimitNeedsNoMoreReadBack(fmt, namespace, x, ttl);
  }

  lemma NearestAbove(v: real)
    requires OnGrid(v) && -0.00000000000005 <= v - 1.00000000000007 <= 0.00000000000005
    ensures v == 1.0000000000001
  {
    var k := (v * 10000000000000.0).Floor;
    assert 10000000000000.2 <= v * 10000000000000.0 <= 10000000000001.2;
    assert k == 10000000000001;
  }

  /** An unscoped lease and an empty scope share one name in the shared store. */
  lemma ScopeMustBeNamed(fmt: NumberFormat, namespace: string, scope: string, ttl: nat)
    requires ttl > 0 && Exact(fmt, 1.0) && Exact(fmt, ttl as real)
    ensures SameAnswers(fmt, namespace, map[], map[],
                        [First(2.0, 1.0, ttl), C.Event(C.ReserveScoped(POOL, scope, 2.0, 1.0, 1.0, ttl, 1), 0)])
            <==> scope != ""
  {
    hide C.AnswerTo, AnswerTo, C.Next, Next, Key, FirstText, SameAnswers;
    var second := C.Event(C.ReserveScoped(POOL, scope, 2.0, 1.0, 1.0, ttl, 1), 0);
    TwoEvents(fmt, namespace, First(2.0, 1.0, ttl), second);
    AfterFirst(fmt, namespace, 2.0, 1.0, ttl);
    SecondReserve(fmt, namespace, 1.0, ttl, second.op);
  }

  /** Renewing an expired lease: the in-memory store always revives it, the shared store only until
      its key has timed out. */
  lemma RenewMustBeInTime(fmt: NumberFormat, namespace: string, ttl: nat, now: nat)
    ensures SameAnswers(fmt, namespace, map[], map[], [First(1.0, 1.0, ttl), C.Event(C.Renew(POOL, 0, ttl), now)])
            <==> now < ttl + 1000
  {
    TwoEvents(fmt, namespace, First(1.0, 1.0, ttl), C.Event(C.Renew(POOL, 0, ttl), now));
    AfterFirst(fmt, namespace, 1.0, 1.0, ttl);
    hide Decode, FirstText, Key, C.Next, Next;
  }

  // --------------------------------------------------------------------------- one time-to-live

  function SecondGrant(ttl: nat): Event { C.Event(C.Reserve(POOL, 2.0, 1.0, ttl, 1), 0) }

  ghost function TwoLeases(ttl: nat, ttl': nat): C.Leases { map[0 := C.Entry(1.0, ttl, None), 1 := C.Entry(1.0, ttl', None)] }

  ghost function TwoFields(fmt: NumberFormat, ttl: nat, ttl': nat): map<LeaseId, string>
  {
    map[0 := FirstText(fmt, 1.0, ttl), 1 := FirstText(fmt, 1.0, ttl')]
  }

  lemma AfterSecond(fmt: NumberFormat, namespace: string, ttl: nat, ttl': nat)
    requires ttl > 0 && Exact(fmt, 1.0) && Exact(fmt, ttl as real)
    ensures
      var mem, server := C.Next(map[], First(2.0, 1.0, ttl)), Next(fmt, namespace, map[], First(2.0, 1.0, ttl));
      && C.AnswerTo(mem, SecondGrant(ttl')) == C.Granted == AnswerTo(fmt, namespace, server, SecondGrant(ttl'))
      && C.Next(mem, SecondGrant(ttl')) == map[POOL := TwoLeases(ttl, ttl')]
      && Next(fmt, namespace, server, SecondGrant(ttl')) == map[Key(namespace, POOL) := Hash(TwoFields(fmt, ttl, ttl'), ttl' + 1000)]
  {
    hide Decode, Join, Key, LiveFields, C.Purge, C.Used, C.ScopeUsed, Amounts, ScopeAmounts;
    AfterFirst(fmt, namespace, 2.0, 1.0, ttl);
    OneLease(1.0, ttl, 0);
    OneField(fmt, 1.0, ttl, 0);
    SecondReserve(fmt, namespace, 1.0, ttl, SecondGrant(ttl').op);
  }

  /** A probe for the whole pool is granted just when no lease is left. */
  lemma ProbeMemory(ttl: nat, ttl': nat, now: nat)
    ensures C.Fits(C.Purge(TwoLeases(ttl, ttl'), now), C.Reserve(POOL, 2.0, 2.0, ttl, 2)) <==> ttl <= now && ttl' <= now
  {
    var live := C.Purge(TwoLeases(ttl, ttl'), now);
    if ttl <= now && ttl' <= now {
      assert live == map[];
      assert C.AllUnits(live) == map[];
    } else {
      CoordinatorRuns.OneOfMany(C.AllUnits(live), if now < ttl then 0 else 1);
    }
  }

  lemma ProbeShared(fmt: NumberFormat, ttl: nat, ttl': nat, now: nat)
    requires Exact(fmt, 1.0) && Exact(fmt, ttl as real) && Exact(fmt, ttl' as real)
    ensures Accepts(fmt, LiveFields(fmt, TwoFields(fmt, ttl, ttl'), now), Args(C.Reserve(POOL, 2.0, 2.0, ttl, 2), now)) <==>
            ttl <= now && ttl' <= now
  {
    SplitJoin(fmt.show(1.0), fmt.show(ttl as real), "");
    SplitJoin(fmt.show(1.0), fmt.show(ttl' as real), "");
    var fields := TwoFields(fmt, ttl, ttl');
    var live := LiveFields(fmt, fields, now);
    assert Decode(fmt, fields[0]) == Field(1.0, ttl as real, "") && Decode(fmt, fields[1]) == Field(1.0, ttl' as real, "");
    hide FirstText, Decode;
    if ttl <= now && ttl' <= now {
      assert live == map[];
      NoFields(fmt, "");
    } else {
      CoordinatorRuns.OneOfMany(Amounts(fmt, live), if now < ttl then 0 else 1);
    }
  }

  /** The key's clock is restarted by every grant, so a lease with a longer time-to-live is forgotten
      together with the key: the coordinators differ exactly while that lease should still count. */
  lemma OneTtlForAll(fmt: NumberFormat, namespace: string, ttl: nat, ttl': nat, now: nat)
    requires ttl > 0 && Exact(fmt, 1.0) && Exact(fmt, ttl as real) && Exact(fmt, ttl' as real)
    ensures SameAnswers(fmt, namespace, map[], map[],
                        [First(2.0, 1.0, ttl), SecondGrant(ttl'), C.Event(C.Reserve(POOL, 2.0, 2.0, ttl, 2), now)])
            <==> !(ttl' + 1000 <= now < ttl)
  {
    var first, second, third := First(2.0, 1.0, ttl), SecondGrant(ttl'), C.Event(C.Reserve(POOL, 2.0, 2.0, ttl, 2), now);
    AfterFirst(fmt, namespace, 2.0, 1.0, ttl);
    AfterSecond(fmt, namespace, ttl, ttl');
    ThirdAnswers(fmt, namespace, ttl, ttl', now);
    hide C.AnswerTo, AnswerTo, C.Next, Next, Exact, Key;
    assert [first, second, third][1..] == [second, third] && [second, third][1..] == [third];
    var mem, server := C.Next(map[], first), Next(fmt, namespace, map[], first);
    OneEvent(fmt, namespace, C.Next(mem, second), Next(fmt, namespace, server, second), third);
    assert SameAnswers(fmt, namespace, mem, server, [second, third]) <==>
           SameAnswers(fmt, namespace, C.Next(mem, second), Next(fmt, namespace, server, second), [third]);
  }

  lemma ThirdAnswers(fmt: NumberFormat, namespace: string, ttl: nat, ttl': nat, now: nat)
    requires ttl > 0 && Exact(fmt, 1.0) && Exact(fmt, ttl as real) && Exact(fmt, ttl' as real)
    ensures
      var third := C.Event(C.Reserve(POOL, 2.0, 2.0, ttl, 2), now);
      var server: Server := map[Key(namespace, POOL) := Hash(TwoFields(fmt, ttl, ttl'), ttl' + 1000)];
      && C.AnswerTo(map[POOL := TwoLeases(ttl, ttl')], third) == (if ttl <= now && ttl' <= now then C.Granted else C.Refused)
      && AnswerTo(fmt, namespace, server, third) ==
         if ttl' + 1000 <= now || (ttl <= now && ttl' <= now) then C.Granted else C.Refused
  {
    hide Key, TwoLeases, TwoFields, C.Purge, C.Fits, Exact;
    ProbeMemory(ttl, ttl', now);
    ProbeShared(fmt, ttl, ttl', now);
    NoFields(fmt, "");
    assert LiveFields(fmt, map[], now) == map[];
    hide LiveFields, Amounts, ScopeAmounts;
  }

  // ------------------------------------------------------------------- a format for whole numbers

  function DigitValue(c: char): nat { if '0' <= c <= '9' then c as int - '0' as int else 0 }

  function Parse(text: string): nat
  {
    if text == "" then 0 else 10 * Parse(text[..|text| - 1]) + DigitValue(text[|text| - 1])
  }

  lemma {:induction false} ParseDigits(n: nat)
    ensures Parse(Digits(n)) == n
  {
    var text := Digits(n);
    if n < 10 {
      assert text[..0] == "";
    } else {
      ParseDigits(n / 10);
      assert text[..|text| - 1] == Digits(n / 10);
    }
  }

  const WHOLE := NumberFormat((x: real) => if x >= 0.0 then Digits(x.Floor) else "", (text: string) => Parse(text) as real)

  lemma WholeNumbersAreExact(n: nat)
    ensures Exact(WHOLE, n as real) && WHOLE.read(Digits(n)) == n as real
  {
    ParseDigits(n);
    DigitsNoColon(n);
    assert (n as real).Floor == n;
  }
}
