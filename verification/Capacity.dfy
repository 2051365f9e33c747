/** The local admission ledger of a pool and its safety calibration. */
module Capacity {
  import opened Sums

  type ReservationId = nat

  const ALPHA := 0.08
  const EPSILON := 1.0 / 4503599627370496.0  // two to the minus 52

  function Clamp(x: real, lo: real, hi: real): real { if x < lo then lo else if x > hi then hi else x }
  function Abs(x: real): real { if x < 0.0 then -x else x }

  // -------------------------------------------------------------------------------- specification

  datatype Calibration = Calibration(safety: real, error: real, throttle: real)

  datatype Ledger = Ledger(reservations: map<ReservationId, real>, reserved: real, calibration: Calibration, observations: nat)

  /** One finished request: how far its work was from the estimate, and whether it was throttled. */
  datatype Observation = Observation(deviation: real, throttled: bool)

  function Initial(initialSafety: real): Ledger
  {
    Ledger(map[], 0.0, Calibration(Clamp(initialSafety, 1.0, 4.0), 0.0, 0.0), 0)
  }

  function Ratio(predicted: real, actual: Option<real>): real
  {
    Clamp(if actual.None? then 1.0 else actual.value / Max(predicted, 1.0), 0.0, 10.0)
  }

  function Observed(predicted: real, actual: Option<real>, throttled: bool): Observation
  {
    Observation(Abs(Ratio(predicted, actual) - 1.0), throttled)
  }

  function Recalibrate(c: Calibration, o: Observation): Calibration
  {
    var error := (1.0 - ALPHA) * c.error + ALPHA * o.deviation;
    var throttle := (1.0 - ALPHA) * c.throttle + ALPHA * if o.throttled then 1.0 else 0.0;
    var target := Clamp(1.0 + error * 1.5 + throttle * 2.0, 1.0, 4.0);
    Calibration(Clamp(c.safety * 0.9 + target * 0.1, 1.0, 4.0), error, throttle)
  }

  /** Amounts below this are taken for rounding residue. */
  function SnapThreshold(configured: real): real { EPSILON * Max(configured, 1.0) * 16.0 }

  function Lowered(configured: real, reserved: real, charged: real): real
  {
    var left := Max(reserved - charged, 0.0);
    if left < SnapThreshold(configured) then 0.0 else left
  }

  datatype Event =
    | Reserve(id: ReservationId, predicted: real)
    | TrackDistributed(id: ReservationId, charged: real)
    | Release(id: ReservationId, predicted: real, actual: Option<real>, throttled: bool)

  /** What a reservation of the given size is charged under the current safety factor. */
  function Charge(l: Ledger, predicted: real): real { predicted * l.calibration.safety }

  predicate Admits(configured: real, l: Ledger, predicted: real)
  {
    Charge(l, predicted) >= 0.0 && l.reserved + Charge(l, predicted) <= configured
  }

  function Next(configured: real, l: Ledger, e: Event): Ledger
  {
    match e
    case Reserve(id, predicted) =>
      if Admits(configured, l, predicted) then
        l.(reservations := l.reservations[id := Charge(l, predicted)], reserved := l.reserved + Charge(l, predicted))
      else l
    case TrackDistributed(id, charged) =>
      l.(reservations := l.reservations[id := charged],
         reserved := if id in l.reservations then l.reserved else l.reserved + charged)
    case Release(id, predicted, actual, throttled) =>
      if id in l.reservations then
        Ledger(l.reservations - {id}, Lowered(configured, l.reserved, l.reservations[id]),
               Recalibrate(l.calibration, Observed(predicted, actual, throttled)), l.observations + 1)
      else l
  }

  function Run(configured: real, l: Ledger, es: seq<Event>): Ledger
    decreases |es|
  {
    if es == [] then l else Run(configured, Next(configured, l, es[0]), es[1..])
  }

  // -------------------------------------------------------------------------------------- the model

  class CapacityModel {
    const configured: real
    var reservations: map<ReservationId, real>
    var reserved: real
    var safety: real
    var error: real
    var throttle: real
    var observations: nat

    function Value(): Ledger
      reads this
    {
      Ledger(reservations, reserved, Calibration(safety, error, throttle), observations)
    }

    constructor (configured: real, initialSafety: real)
      ensures this.configured == configured && Value() == Initial(initialSafety)
    {
      this.configured := configured;
      reservations, reserved, observations := map[], 0.0, 0;
      safety, error, throttle := Clamp(initialSafety, 1.0, 4.0), 0.0, 0.0;
    }

    method Reserve(predicted: real, id: ReservationId) returns (granted: bool)
      modifies this
      ensures granted <==> Admits(configured, old(Value()), predicted)
      ensures Value() == Next(configured, old(Value()), Event.Reserve(id, predicted))
    {
      var charged := predicted * safety;
      if charged < 0.0 || reserved + charged > configured { return false; }
      reserved := reserved + charged;
      reservations := reservations[id := charged];
      return true;
    }

    method ChargedUnits(predicted: real) returns (charged: real)
      ensures charged == Charge(Value(), predicted)
    {
      charged := predicted * safety;
    }

    method TrackDistributed(id: ReservationId, charged: real)
      modifies this
      ensures Value() == Next(configured, old(Value()), Event.TrackDistributed(id, charged))
    {
      var fresh' := id !in reservations;
      reservations := reservations[id := charged];
      if fresh' {
        reserved := reserved + charged;
      }
    }

    method Release(id: ReservationId, predicted: real, actual: Option<real>, throttled: bool) returns (found: bool)
      modifies this
      ensures found <==> id in old(reservations)
      ensures Value() == Next(configured, old(Value()), Event.Release(id, predicted, actual, throttled))
    {
      if id !in reservations { return false; }
      var charged := reservations[id];
      reservations := reservations - {id};
      reserved := Max(reserved - charged, 0.0);
      if reserved < EPSILON * Max(configured, 1.0) * 16.0 {
        reserved := 0.0;
      }
      var ratio := Clamp(if actual.None? then 1.0 else actual.value / Max(predicted, 1.0), 0.0, 10.0);
      error := (1.0 - ALPHA) * error + ALPHA * Abs(ratio - 1.0);
      throttle := (1.0 - ALPHA) * throttle + ALPHA * if throttled then 1.0 else 0.0;
      var target := Clamp(1.0 + error * 1.5 + throttle * 2.0, 1.0, 4.0);
      safety := Clamp(safety * 0.9 + target * 0.1, 1.0, 4.0);
      observations := observations + 1;
      return true;
    }
  }

  // ---------------------------------------------------------------------- the ledger over every run

  /** Identifiers are not reused while outstanding, and no charge is negative. */
  ghost predicate Clean(l: Ledger, e: Event)
  {
    match e
    case Reserve(id, _) => id !in l.reservations
    case TrackDistributed(id, charged) => id !in l.reservations && charged >= 0.0
    case Release(_, _, _, _) => true
  }

  ghost predicate CleanRun(configured: real, l: Ledger, es: seq<Event>)
    decreases |es|
  {
    es != [] ==> Clean(l, es[0]) && CleanRun(configured, Next(configured, l, es[0]), es[1..])
  }

  ghost function Outstanding(l: Ledger): real { Sum(l.reservations) }

  /** Tracking an identifier again does nothing if the charge is the same, and makes the total inexact if it is not. */
  lemma TrackingAgain(configured: real, l: Ledger, id: ReservationId, charged: real)
    requires l.reserved == Outstanding(l) && id in l.reservations
    ensures
      var l' := Next(configured, l, Event.TrackDistributed(id, charged));
      && (charged == l.reservations[id] ==> l' == l)
      && (l'.reserved == Outstanding(l') <==> charged == l.reservations[id])
  {
    var l', rest := Next(configured, l, Event.TrackDistributed(id, charged)), l.reservations - {id};
    SumRemove(l.reservations, id);
    SumRemove(l'.reservations, id);
    assert l'.reservations - {id} == rest;
    if charged == l.reservations[id] { assert l'.reservations == l.reservations; }
  }

  /** While the total is exact, a reservation is admitted if and only if its charge is not negative and fits beside
      what is outstanding, and then exactly that is outstanding in addition. */
  lemma AdmittedIffItFits(configured: real, l: Ledger, id: ReservationId, predicted: real)
    requires l.reserved == Outstanding(l) && id !in l.reservations
    ensures
      var charge, l' := predicted * l.calibration.safety, Next(configured, l, Event.Reserve(id, predicted));
      && (id in l'.reservations <==> charge >= 0.0 && Outstanding(l) + charge <= configured)
      && (id in l'.reservations ==> l'.reserved == Outstanding(l') == Outstanding(l) + charge && l'.reservations[id] == charge)
      && (id !in l'.reservations ==> l' == l)
  {
    SumInsert(l.reservations, id, Charge(l, predicted));
  }

  ghost predicate Covered(l: Ledger)
  {
    NonNegative(l.reservations) && 0.0 <= l.reserved <= Outstanding(l)
  }

  lemma CoveredStep(configured: real, l: Ledger, e: Event)
    requires Covered(l) && Clean(l, e)
    ensures Covered(Next(configured, l, e))
  {
    hide Recalibrate, Observed, SnapThreshold;
    match e
    case Reserve(id, predicted) => SumInsert(l.reservations, id, Charge(l, predicted));
    case TrackDistributed(id, charged) => SumInsert(l.reservations, id, charged);
    case Release(id, _, _, _) =>
      if id in l.reservations {
        SumRemove(l.reservations, id);
        SumNonNegative(l.reservations - {id});
      }
  }

  /** Every run: the running total never exceeds what is outstanding. */
  lemma {:induction false} ReservedNeverExceedsOutstanding(configured: real, l: Ledger, es: seq<Event>)
    requires Covered(l) && CleanRun(configured, l, es)
    ensures Covered(Run(configured, l, es))
    decreases |es|
  {
    hide Next, Clean, Covered;
    if es != [] {
      CoveredStep(configured, l, es[0]);
      ReservedNeverExceedsOutstanding(configured, Next(configured, l, es[0]), es[1..]);
    }
  }

  /** A release keeps the total exact if and only if what stays outstanding is nothing, or is too much
      to be taken for rounding residue. */
  lemma ReleaseStaysExact(configured: real, l: Ledger, e: Event)
    requires NonNegative(l.reservations) && l.reserved == Outstanding(l) && e.Release? && e.id in l.reservations
    ensures
      var l' := Next(configured, l, e);
      l'.reserved == Outstanding(l') <==> Outstanding(l') == 0.0 || Outstanding(l') >= Max(configured, 1.0) / 281474976710656.0
  {
    hide Recalibrate, Observed, SnapThreshold;
    ThresholdIs(configured);
    SumRemove(l.reservations, e.id);
    SumNonNegative(l.reservations - {e.id});
  }

  lemma ThresholdIs(configured: real)
    ensures SnapThreshold(configured) == Max(configured, 1.0) / 281474976710656.0
  {
  }

  /** No charge is so small that it could be taken for residue. */
  ghost predicate Sizeable(configured: real, m: map<ReservationId, real>)
  {
    forall id :: id in m ==> m[id] == 0.0 || m[id] >= SnapThreshold(configured)
  }

  lemma {:induction false} SizeableSum(configured: real, m: map<ReservationId, real>)
    requires Sizeable(configured, m)
    ensures Sum(m) == 0.0 || Sum(m) >= SnapThreshold(configured)
    decreases |m|
  {
    if m != map[] {
      var id :| id in m;
      SumRemove(m, id);
      SmallerMap(m, id);
      SizeableSum(configured, m - {id});
    }
  }

  ghost predicate SizeableCharge(configured: real, l: Ledger, e: Event)
  {
    match e
    case Reserve(_, predicted) => Charge(l, predicted) <= 0.0 || Charge(l, predicted) >= SnapThreshold(configured)
    case TrackDistributed(_, charged) => charged == 0.0 || charged >= SnapThreshold(configured)
    case Release(_, _, _, _) => true
  }

  ghost predicate SizeableRun(configured: real, l: Ledger, es: seq<Event>)
    decreases |es|
  {
    es != [] ==> SizeableCharge(configured, l, es[0]) && SizeableRun(configured, Next(configured, l, es[0]), es[1..])
  }

  ghost predicate Exact(configured: real, l: Ledger)
  {
    Sizeable(configured, l.reservations) && l.reserved == Outstanding(l)
  }

  lemma ExactStep(configured: real, l: Ledger, e: Event)
    requires Exact(configured, l) && Clean(l, e) && SizeableCharge(configured, l, e)
    ensures Exact(configured, Next(configured, l, e))
  {
    assert SnapThreshold(configured) > 0.0;
    hide Recalibrate, Observed, SnapThreshold;
    match e
    case Reserve(id, predicted) => SumInsert(l.reservations, id, Charge(l, predicted));
    case TrackDistributed(id, charged) => SumInsert(l.reservations, id, charged);
    case Release(id, _, _, _) =>
      if id in l.reservations {
        ReleaseStaysExact(configured, l, e);
        SizeableSum(configured, l.reservations - {id});
      }
  }

  /** Every run whose charges are zero or sizeable: the running total is exactly what is outstanding,
      and with admission by `Reserve` alone it stays within the configured capacity. */
  lemma {:induction false} ExactRun(configured: real, l: Ledger, es: seq<Event>)
    requires Exact(configured, l) && CleanRun(configured, l, es) && SizeableRun(configured, l, es)
    ensures Exact(configured, Run(configured, l, es))
    ensures Outstanding(l) <= configured && (forall i :: 0 <= i < |es| ==> !es[i].TrackDistributed?) ==>
              Outstanding(Run(configured, l, es)) <= configured
    decreases |es|
  {
    hide Clean, SizeableCharge, Recalibrate, Observed, SnapThreshold;
    if es != [] {
      ExactStep(configured, l, es[0]);
      if es[0].Release? && es[0].id in l.reservations {
        SumRemove(l.reservations, es[0].id);
        ChargeNotNegative(configured, l.reservations, es[0].id);
      }
      ExactRun(configured, Next(configured, l, es[0]), es[1..]);
      assert forall i :: 0 <= i < |es[1..]| ==> es[1..][i] == es[i + 1];
    }
  }

  lemma ChargeNotNegative(configured: real, m: map<ReservationId, real>, id: ReservationId)
    requires Sizeable(configured, m) && id in m
    ensures m[id] >= 0.0
  {
  }

  /** With charges under the threshold the guarantee is lost: two such reservations, one release, and
      a third reservation of the whole capacity is let in beside the one still outstanding. */
  lemma ResidueHidesAReservation(configured: real)
    requires configured >= 1.0
    ensures
      var half := configured / 562949953421312.0;
      var es := [Reserve(0, half), Reserve(1, half), Release(0, half, None, false), Reserve(2, configured)];
      && CleanRun(configured, Initial(1.0), es)
      && Outstanding(Run(configured, Initial(1.0), es)) == configured + half > configured
  {
    hide *;
    HalfThreshold(configured);
    ResidueHides(configured, configured / 562949953421312.0);
  }

  lemma HalfThreshold(configured: real)
    requires configured >= 1.0
    ensures
      var half := configured / 562949953421312.0;
      half == SnapThreshold(configured) / 2.0 && 0.0 < half && half + half <= configured
  {
    ThresholdIs(configured);
  }

  lemma ResidueHides(configured: real, half: real)
    requires configured >= 1.0 && half == SnapThreshold(configured) / 2.0 && 0.0 < half && half + half <= configured
    ensures
      var es := [Reserve(0, half), Reserve(1, half), Release(0, half, None, false), Reserve(2, configured)];
      && CleanRun(configured, Initial(1.0), es)
      && Outstanding(Run(configured, Initial(1.0), es)) == configured + half > configured
  {
    hide SnapThreshold;
    var l0 := Initial(1.0);
    var l1 := Next(configured, l0, Reserve(0, half));
    assert l1.reservations == map[0 := half] && l1.reserved == half;
    var l2 := Next(configured, l1, Reserve(1, half));
    assert l2.reservations == map[0 := half, 1 := half] && l2.reserved == half + half;
    var l3 := Next(configured, l2, Release(0, half, None, false));
    assert l3.reservations == map[1 := half] && l3.reserved == 0.0 && l3.calibration.safety == 1.0;
    var l4 := Next(configured, l3, Reserve(2, configured));
    var none: map<ReservationId, real> := map[];
    assert none[1 := half] == l3.reservations && l4.reservations == l3.reservations[2 := configured];
    SumInsert(none, 1, half);
    SumInsert(l3.reservations, 2, configured);
    assert Outstanding(l4) == configured + half;
    FourSteps(configured, l0, Reserve(0, half), Reserve(1, half), Release(0, half, None, false), Reserve(2, configured));
  }

  lemma FourSteps(configured: real, l: Ledger, a: Event, b: Event, c: Event, d: Event)
    ensures
      var l1 := Next(configured, l, a);
      var l2 := Next(configured, l1, b);
      var l3 := Next(configured, l2, c);
      && Run(configured, l, [a, b, c, d]) == Next(configured, l3, d)
      && (CleanRun(configured, l, [a, b, c, d]) <==> Clean(l, a) && Clean(l1, b) && Clean(l2, c) && Clean(l3, d))
  {
    hide Next, Clean;
    var l1 := Next(configured, l, a);
    var l2 := Next(configured, l1, b);
    var l3 := Next(configured, l2, c);
    assert [a, b, c, d][1..] == [b, c, d] && [b, c, d][1..] == [c, d] && [c, d][1..] == [d] && [d][1..] == [];
    assert Run(configured, l3, [d]) == Next(configured, l3, d);
    assert Run(configured, l2, [c, d]) == Run(configured, l3, [d]);
    assert Run(configured, l1, [b, c, d]) == Run(configured, l2, [c, d]);
    assert CleanRun(configured, l3, [d]) <==> Clean(l3, d);
    assert CleanRun(configured, l2, [c, d]) <==> Clean(l2, c) && CleanRun(configured, l3, [d]);
    assert CleanRun(configured, l1, [b, c, d]) <==> Clean(l1, b) && CleanRun(configured, l2, [c, d]);
  }
}
