/** How the safety factor behaves over every history of finished requests. */
module CalibrationRuns {
  import opened Sums
  import opened Capacity

  ghost predicate InRange(c: Calibration)
  {
    1.0 <= c.safety <= 4.0 && 0.0 <= c.error <= 9.0 && 0.0 <= c.throttle <= 1.0
  }

  function Recalibrated(c: Calibration, os: seq<Observation>): Calibration
    decreases |os|
  {
    if os == [] then c else Recalibrated(Recalibrate(c, os[0]), os[1..])
  }

  /** The observations that a run of the ledger makes: one for each release that finds its reservation. */
  function Observations(configured: real, l: Ledger, es: seq<Event>): seq<Observation>
    decreases |es|
  {
    if es == [] then []
    else
      var e := es[0];
      (if e.Release? && e.id in l.reservations then [Observed(e.predicted, e.actual, e.throttled)] else []) +
      Observations(configured, Next(configured, l, e), es[1..])
  }

  /** The calibration of a ledger after any run depends on its observations alone. */
  lemma {:induction false} RunCalibration(configured: real, l: Ledger, es: seq<Event>)
    ensures Run(configured, l, es).calibration == Recalibrated(l.calibration, Observations(configured, l, es))
    decreases |es|
  {
    hide Recalibrate, Observed, Lowered;
    if es != [] {
      var e, rest := es[0], Observations(configured, Next(configured, l, es[0]), es[1..]);
      RunCalibration(configured, Next(configured, l, e), es[1..]);
      if e.Release? && e.id in l.reservations {
        assert ([Observed(e.predicted, e.actual, e.throttled)] + rest)[1..] == rest;
      } else {
        assert [] + rest == rest;
      }
    }
  }

  lemma {:induction false} RunStaysInRange(configured: real, l: Ledger, es: seq<Event>)
    requires InRange(l.calibration)
    ensures InRange(Run(configured, l, es).calibration)
    decreases |es|
  {
    if es != [] { RunStaysInRange(configured, Next(configured, l, es[0]), es[1..]); }
  }

  /** Every history of a ledger: safety in [1, 4], error in [0, 9], throttle in [0, 1]. */
  lemma AlwaysInRange(configured: real, initialSafety: real, es: seq<Event>)
    ensures InRange(Run(configured, Initial(initialSafety), es).calibration)
  {
    RunStaysInRange(configured, Initial(initialSafety), es);
  }

  lemma TimesInRange(predicted: real, safety: real)
    requires predicted >= 0.0 && 1.0 <= safety <= 4.0
    ensures predicted <= predicted * safety <= 4.0 * predicted
  {
  }

  /** Whatever the history, a charge covers the predicted work and is at most four times that. */
  lemma ChargeBounds(configured: real, initialSafety: real, es: seq<Event>, predicted: real)
    requires predicted >= 0.0
    ensures predicted <= Charge(Run(configured, Initial(initialSafety), es), predicted) <= 4.0 * predicted
  {
    hide Run, Initial;
    AlwaysInRange(configured, initialSafety, es);
    TimesInRange(predicted, Run(configured, Initial(initialSafety), es).calibration.safety);
  }

  /** At first a charge is the prediction times the configured factor, which counts as 1 when it is less and as 4
      when it is more. */
  lemma FirstCharge(initialSafety: real, predicted: real)
    ensures 1.0 <= initialSafety <= 4.0 ==> Charge(Initial(initialSafety), predicted) == predicted * initialSafety
    ensures initialSafety < 1.0 ==> Charge(Initial(initialSafety), predicted) == predicted
    ensures initialSafety > 4.0 ==> Charge(Initial(initialSafety), predicted) == predicted * 4.0
  {
  }

  // ------------------------------------------------------------------------- what reports do

  function Pow(x: real, k: nat): real { if k == 0 then 1.0 else x * Pow(x, k - 1) }

  /** How far reported work is from the prediction, relative to it: a prediction below one unit counts as one, no
      report counts as exact, and more than ten times the prediction counts as ten times. */
  predicate IsOff(predicted: real, actual: Option<real>, d: real)
  {
    var p := Max(predicted, 1.0);
    match actual
    case None => d == 0.0
    case Some(a) => if a < 0.0 then d == 1.0 else if a > 10.0 * p then d == 9.0 else d * p == Abs(a - p)
  }

  lemma ObservedIsOff(predicted: real, actual: Option<real>, throttled: bool, d: real)
    requires IsOff(predicted, actual, d)
    ensures Observed(predicted, actual, throttled) == Observation(d, throttled)
  {
    var p := Max(predicted, 1.0);
    if actual.Some? {
      RatioOrder(actual.value, p);
      if 0.0 <= actual.value <= 10.0 * p { OffInRange(actual.value, p, d); }
    }
  }

  lemma RatioOrder(a: real, p: real)
    requires p >= 1.0
    ensures a < 0.0 <==> a / p < 0.0
    ensures a > 10.0 * p <==> a / p > 10.0
  {
    var r := a / p;
    assert r * p == a;
    Sign(r, p);
    Sign(r - 10.0, p);
    assert (r - 10.0) * p == a - 10.0 * p;
  }

  lemma Sign(x: real, p: real)
    requires p > 0.0
    ensures (x > 0.0 <==> x * p > 0.0) && (x < 0.0 <==> x * p < 0.0)
  {
  }

  lemma OffInRange(a: real, p: real, d: real)
    requires p >= 1.0 && d * p == Abs(a - p)
    ensures Abs(a / p - 1.0) == d
  {
    var r := a / p;
    assert r * p == a;
    assert (r - 1.0) * p == a - p;
    AbsTimes(r - 1.0, p);
    SameFactor(Abs(r - 1.0), d, p);
  }

  lemma AbsTimes(x: real, p: real)
    requires p > 0.0
    ensures Abs(x) * p == Abs(x * p)
  {
    if x < 0.0 { assert x * p < 0.0; } else { assert x * p >= 0.0; }
  }

  lemma SameFactor(x: real, y: real, p: real)
    requires p > 0.0 && x * p == y * p
    ensures x == y
  {
    assert (x - y) * p == 0.0;
  }

  /** Every release of the run reports this deviation and this throttle flag. */
  ghost predicate AllReport(es: seq<Event>, d: real, throttled: bool)
  {
    forall i :: 0 <= i < |es| && es[i].Release? ==> IsOff(es[i].predicted, es[i].actual, d) && es[i].throttled == throttled
  }

  /** A smoothed value after k equal samples. */
  function Smoothed(start: real, sample: real, k: nat): real { Pow(0.92, k) * start + (1.0 - Pow(0.92, k)) * sample }

  lemma SmoothedStep(start: real, sample: real, k: nat)
    ensures Smoothed(0.92 * start + 0.08 * sample, sample, k) == Smoothed(start, sample, k + 1)
  {
    var p := Pow(0.92, k);
    assert Pow(0.92, k + 1) == 0.92 * p;
    assert p * (0.92 * start + 0.08 * sample) == 0.92 * p * start + 0.08 * p * sample;
    assert (1.0 - p) * sample == sample - p * sample && (1.0 - 0.92 * p) * sample == sample - 0.92 * p * sample;
  }

  lemma SmoothedNone(start: real, sample: real)
    ensures Smoothed(start, sample, 0) == start
  {
  }

  lemma OneReport(c: Calibration, d: real, throttled: bool)
    ensures Recalibrate(c, Observation(d, throttled)).error == 0.92 * c.error + 0.08 * d
    ensures Recalibrate(c, Observation(d, throttled)).throttle == 0.92 * c.throttle + 0.08 * if throttled then 1.0 else 0.0
  {
  }

  /** Every run of a ledger whose releases all report the same: error and throttle have come from where they were
      towards what is reported, by a factor of 0.92 for each release that found its reservation. */
  lemma {:induction false} EqualReports(configured: real, l: Ledger, es: seq<Event>, d: real, throttled: bool)
    requires AllReport(es, d, throttled)
    ensures
      var after := Run(configured, l, es);
      && after.observations >= l.observations
      && after.calibration.error == Smoothed(l.calibration.error, d, after.observations - l.observations)
      && after.calibration.throttle == Smoothed(l.calibration.throttle, if throttled then 1.0 else 0.0, after.observations - l.observations)
    decreases |es|
  {
    hide Smoothed, IsOff, Observed, Recalibrate, Lowered;
    var flag := if throttled then 1.0 else 0.0;
    SmoothedNone(l.calibration.error, d);
    SmoothedNone(l.calibration.throttle, flag);
    if es != [] {
      var e, l' := es[0], Next(configured, l, es[0]);
      assert forall i :: 0 <= i < |es[1..]| ==> es[1..][i] == es[i + 1];
      EqualReports(configured, l', es[1..], d, throttled);
      if e.Release? && e.id in l.reservations {
        ObservedIsOff(e.predicted, e.actual, e.throttled, d);
        OneReport(l.calibration, d, throttled);
        var k := Run(configured, l, es).observations - l'.observations;
        SmoothedStep(l.calibration.error, d, k);
        SmoothedStep(l.calibration.throttle, flag, k);
      }
    }
  }

  /** A release from a safety factor of 1 raises it if and only if it reports work other than predicted or a
      throttle, or earlier ones did. */
  lemma SafetyRisesIff(configured: real, l: Ledger, e: Event)
    requires e.Release? && e.id in l.reservations && l.calibration.safety == 1.0 && l.calibration.error >= 0.0 && l.calibration.throttle >= 0.0
    ensures Next(configured, l, e).calibration.safety > 1.0 <==>
            || (e.actual.Some? && e.actual.value != Max(e.predicted, 1.0)) || e.throttled
            || l.calibration.error > 0.0 || l.calibration.throttle > 0.0
  {
    DeviationIff(e.predicted, e.actual, e.throttled);
    hide Observed;
  }

  lemma DeviationIff(predicted: real, actual: Option<real>, throttled: bool)
    ensures Observed(predicted, actual, throttled).deviation >= 0.0 && Observed(predicted, actual, throttled).throttled == throttled
    ensures Observed(predicted, actual, throttled).deviation > 0.0 <==> actual.Some? && actual.value != Max(predicted, 1.0)
  {
    var p := Max(predicted, 1.0);
    if actual.Some? {
      var r := actual.value / p;
      assert r * p == actual.value;
      assert r == 1.0 <==> actual.value == p by {
        if actual.value == p { SameFactor(r, 1.0, p); }
      }
    }
  }

  // ---------------------------------------------------------------------------------- monotonicity

  predicate NoBetter(c: Calibration, c': Calibration)
  {
    c.safety <= c'.safety && c.error <= c'.error && c.throttle <= c'.throttle
  }

  predicate NoBetterObserved(o: Observation, o': Observation)
  {
    o.deviation <= o'.deviation && (o.throttled ==> o'.throttled)
  }

  /** Two histories side by side: if the second sees at least as large deviations and throttles at
      every release, then its safety factor, and with it every charge, is never smaller. */
  lemma {:induction false} WorseHistoryNeverLowersSafety(c: Calibration, c': Calibration, os: seq<Observation>, os': seq<Observation>,
                                                         predicted: real)
    requires NoBetter(c, c') && |os| == |os'| && predicted >= 0.0
    requires forall i :: 0 <= i < |os| ==> NoBetterObserved(os[i], os'[i])
    ensures NoBetter(Recalibrated(c, os), Recalibrated(c', os'))
    ensures predicted * Recalibrated(c, os).safety <= predicted * Recalibrated(c', os').safety
    decreases |os|
  {
    if os != [] {
      assert NoBetterObserved(os[0], os'[0]);
      assert NoBetter(Recalibrate(c, os[0]), Recalibrate(c', os'[0]));
      WorseHistoryNeverLowersSafety(Recalibrate(c, os[0]), Recalibrate(c', os'[0]), os[1..], os'[1..], predicted);
    } else {
      assert predicted * (c'.safety - c.safety) >= 0.0;
    }
  }

  /** The same requests, tracked and released in the same order; each release of the second run reports at least
      as large a deviation, and a throttle whenever the first does. */
  predicate WorseReports(es: seq<Event>, es': seq<Event>)
    decreases |es|
  {
    && |es| == |es'|
    && (es != [] ==>
          && WorseReports(es[1..], es'[1..]) && es[0].id == es'[0].id
          && match (es[0], es'[0])
             case (TrackDistributed(_, _), TrackDistributed(_, _)) => true
             case (Release(_, p, a, t), Release(_, p', a', t')) => NoBetterObserved(Observed(p, a, t), Observed(p', a', t'))
             case _ => false)
  }

  lemma {:induction false} WorseObservations(configured: real, l: Ledger, l': Ledger, es: seq<Event>, es': seq<Event>)
    requires WorseReports(es, es') && l.reservations.Keys == l'.reservations.Keys
    ensures
      var os, os' := Observations(configured, l, es), Observations(configured, l', es');
      |os| == |os'| && forall i :: 0 <= i < |os| ==> NoBetterObserved(os[i], os'[i])
    decreases |es|
  {
    hide Observed, Recalibrate, Lowered, NoBetterObserved;
    if es != [] {
      var e, e' := es[0], es'[0];
      var next, next' := Next(configured, l, e), Next(configured, l', e');
      assert next.reservations.Keys == next'.reservations.Keys;
      WorseObservations(configured, next, next', es[1..], es'[1..]);
    }
  }

  /** Two ledgers that track the same distributed reservations: with worse reports at every release, the safety
      factor and every charge are never smaller. */
  lemma WorseReportsNeverLowerCharges(configured: real, l: Ledger, l': Ledger, es: seq<Event>, es': seq<Event>, predicted: real)
    requires WorseReports(es, es') && l.reservations.Keys == l'.reservations.Keys && NoBetter(l.calibration, l'.calibration)
    requires predicted >= 0.0
    ensures NoBetter(Run(configured, l, es).calibration, Run(configured, l', es').calibration)
    ensures Charge(Run(configured, l, es), predicted) <= Charge(Run(configured, l', es'), predicted)
  {
    hide WorseReports, NoBetterObserved, Run, Recalibrated, Observations;
    WorseObservations(configured, l, l', es, es');
    RunCalibration(configured, l, es);
    RunCalibration(configured, l', es');
    WorseHistoryNeverLowersSafety(l.calibration, l'.calibration, Observations(configured, l, es), Observations(configured, l', es'), predicted);
  }

  // ------------------------------------------------------------------------------------------ decay

  const QUIET := Observation(0.0, false)

  function AfterQuiet(c: Calibration, k: nat): Calibration
  {
    if k == 0 then c else Recalibrate(AfterQuiet(c, k - 1), QUIET)
  }

  /** What the target factor exceeds 1 by, before it is clamped. */
  function Pressure(c: Calibration): real { 1.5 * c.error + 2.0 * c.throttle }

  function DecayBound(c: Calibration, k: nat): real
  {
    Pow(0.9, k) * (c.safety - 1.0) + 4.6 * (Pressure(c) * Pow(0.92, k) - Pressure(c) * Pow(0.9, k))
  }

  lemma {:induction false} PowPositive(x: real, k: nat)
    requires 0.0 < x <= 1.0
    ensures 0.0 < Pow(x, k) <= 1.0
  {
    if k > 0 {
      PowPositive(x, k - 1);
      assert 0.0 < x * Pow(x, k - 1) <= Pow(x, k - 1);
    }
  }

  lemma {:induction false} QuietPressure(c: Calibration, k: nat)
    ensures Pressure(AfterQuiet(c, k)) == Pressure(c) * Pow(0.92, k)
  {
    if k > 0 {
      QuietPressure(c, k - 1);
      assert Pressure(AfterQuiet(c, k)) == 0.92 * Pressure(AfterQuiet(c, k - 1));
      assert Pressure(c) * (0.92 * Pow(0.92, k - 1)) == 0.92 * (Pressure(c) * Pow(0.92, k - 1));
    }
  }

  lemma {:induction false} QuietStaysInRange(c: Calibration, k: nat)
    requires InRange(c)
    ensures InRange(AfterQuiet(c, k))
  {
    if k > 0 { QuietStaysInRange(c, k - 1); }
  }

  lemma BoundStep(c: Calibration, k: nat)
    ensures DecayBound(c, k + 1) == 0.9 * DecayBound(c, k) + 0.1 * (Pressure(c) * Pow(0.92, k + 1))
  {
    var p, q, g, s := Pow(0.92, k), Pow(0.9, k), Pressure(c), c.safety - 1.0;
    assert Pow(0.92, k + 1) == 0.92 * p && Pow(0.9, k + 1) == 0.9 * q;
    assert g * (0.92 * p) == 0.92 * (g * p) && g * (0.9 * q) == 0.9 * (g * q);
    assert (0.9 * q) * s == 0.9 * (q * s);
  }

  /** After k quiet releases the safety factor is within the bound, and equals it when the target
      factor never reaches its cap. */
  lemma {:induction false} SafetyDecays(c: Calibration, k: nat)
    requires InRange(c)
    ensures AfterQuiet(c, k).safety - 1.0 <= DecayBound(c, k)
    ensures 0.92 * Pressure(c) <= 3.0 ==> AfterQuiet(c, k).safety - 1.0 == DecayBound(c, k)
  {
    hide Recalibrate, Pressure, DecayBound, Pow, InRange;
    if k == 0 {
      BoundStart(c);
    } else {
      SafetyDecays(c, k - 1);
      QuietStaysInRange(c, k - 1);
      QuietPressure(c, k);
      BoundStep(c, k - 1);
      QuietStep(AfterQuiet(c, k - 1));
      if 0.92 * Pressure(c) <= 3.0 { PressureUnderCap(c, k); }
    }
  }

  lemma BoundStart(c: Calibration)
    ensures DecayBound(c, 0) == c.safety - 1.0
  {
  }

  lemma PressureUnderCap(c: Calibration, k: nat)
    requires k > 0 && 0.92 * Pressure(c) <= 3.0
    ensures Pressure(c) * Pow(0.92, k) <= 3.0
  {
    PowPositive(0.92, k - 1);
    var g, p := Pressure(c), Pow(0.92, k - 1);
    assert (0.92 * g) * p <= 3.0 * p;
    assert g * (0.92 * p) == (0.92 * g) * p;
  }

  lemma {:induction false} QuietFromTheFront(c: Calibration, k: nat)
    ensures AfterQuiet(Recalibrate(c, QUIET), k) == AfterQuiet(c, k + 1)
  {
    hide Recalibrate;
    if k > 0 { QuietFromTheFront(c, k - 1); }
  }

  lemma {:induction false} QuietHistory(c: Calibration, os: seq<Observation>)
    requires forall i :: 0 <= i < |os| ==> os[i] == QUIET
    ensures Recalibrated(c, os) == AfterQuiet(c, |os|)
    decreases |os|
  {
    hide Recalibrate;
    if os != [] {
      QuietHistory(Recalibrate(c, QUIET), os[1..]);
      QuietFromTheFront(c, |os| - 1);
    }
  }

  /** A release without a report of actual work, or with exactly the predicted work (one unit if less was
      predicted), and without a throttle is quiet. */
  lemma QuietRelease(predicted: real, actual: Option<real>, throttled: bool)
    requires actual.None? || actual.value == Max(predicted, 1.0)
    ensures Observed(predicted, actual, throttled) == QUIET <==> !throttled
  {
    assert actual.Some? ==> actual.value / Max(predicted, 1.0) == 1.0;
  }

  /** A ledger all of whose releases in a run are quiet comes down to a safety factor of 1 at that rate. */
  lemma LedgerSafetyDecays(configured: real, l: Ledger, es: seq<Event>)
    requires InRange(l.calibration)
    requires forall i :: 0 <= i < |Observations(configured, l, es)| ==> Observations(configured, l, es)[i] == QUIET
    ensures Run(configured, l, es).calibration.safety - 1.0 <= DecayBound(l.calibration, |Observations(configured, l, es)|)
  {
    hide InRange, Recalibrate, DecayBound, Run, Observations, Recalibrated, AfterQuiet;
    RunCalibration(configured, l, es);
    QuietHistory(l.calibration, Observations(configured, l, es));
    SafetyDecays(l.calibration, |Observations(configured, l, es)|);
  }

  lemma QuietStep(c: Calibration)
    requires InRange(c)
    ensures
      var c' := Recalibrate(c, QUIET);
      c'.safety == c.safety * 0.9 + Clamp(1.0 + Pressure(c'), 1.0, 4.0) * 0.1 && Pressure(c') >= 0.0
  {
  }
}
