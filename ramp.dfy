/**
 The warmup ramp of GradualWarmupScheduler.get_lr: a pure function of the base
 rates, the multiplier and the step counter. Rates are modelled as `real`, so the
 linear formulas hold exactly.
 */
module WarmupRamp {

  /** First rate of the ramp: 0 when the multiplier is 1, the base rate otherwise. */
  function RampStart(baseLr: real, multiplier: real): real {
    if multiplier == 1.0 then 0.0 else baseLr
  }

  /** Target rate reached at the end of warmup. */
  function RampTarget(baseLr: real, multiplier: real): real {
    baseLr * multiplier
  }

  /** Reference definition: the point a fraction t/n of the way from lo to hi. */
  function Lerp(lo: real, hi: real, t: int, n: int): real
    requires n > 0
  {
    lo + (hi - lo) * ((t as real) / (n as real))
  }

  /** The rate get_lr computes for one parameter group at step t of an n-step warmup. */
  function RampRate(baseLr: real, multiplier: real, t: int, n: int): real
    requires n > 0
  {
    if multiplier == 1.0 then baseLr * ((t as real) / (n as real))
    else baseLr * ((multiplier - 1.0) * (t as real) / (n as real) + 1.0)
  }

  /** Both branches of get_lr are the straight line from RampStart to RampTarget. */
  lemma RampIsLerp(baseLr: real, multiplier: real, t: int, n: int)
    requires n > 0
    ensures RampRate(baseLr, multiplier, t, n)
         == Lerp(RampStart(baseLr, multiplier), RampTarget(baseLr, multiplier), t, n)
  {
    var f := (t as real) / (n as real);
    if multiplier != 1.0 {
      // b * ((m - 1) * f + 1) == b + (b * m - b) * f
      assert baseLr * ((multiplier - 1.0) * f + 1.0) == baseLr + (baseLr * multiplier - baseLr) * f;
    }
  }

  /** The ramp starts at RampStart (0 or the base rate) and ends exactly at the target. */
  lemma RampEndpoints(baseLr: real, multiplier: real, n: int)
    requires n > 0
    ensures RampRate(baseLr, multiplier, 0, n) == RampStart(baseLr, multiplier)
    ensures RampRate(baseLr, multiplier, n, n) == RampTarget(baseLr, multiplier)
  {
    RampIsLerp(baseLr, multiplier, 0, n);
    RampIsLerp(baseLr, multiplier, n, n);
    assert (n as real) / (n as real) == 1.0;
  }

  /** For a nonnegative base rate and multiplier >= 1 the ramp never decreases. */
  lemma RampMonotone(baseLr: real, multiplier: real, t1: int, t2: int, n: int)
    requires n > 0 && baseLr >= 0.0 && multiplier >= 1.0 && t1 <= t2
    ensures RampRate(baseLr, multiplier, t1, n) <= RampRate(baseLr, multiplier, t2, n)
  {
    RampIsLerp(baseLr, multiplier, t1, n);
    RampIsLerp(baseLr, multiplier, t2, n);
    // the slope is nonnegative and the fraction t/n grows with t
    var slope := RampTarget(baseLr, multiplier) - RampStart(baseLr, multiplier);
    assert slope >= 0.0 by { assert baseLr * multiplier >= baseLr * 1.0; }
    assert slope * ((t1 as real) / (n as real)) <= slope * ((t2 as real) / (n as real));
  }

  /** During warmup every rate lies between RampStart (>= 0) and the target. */
  lemma RampBounds(baseLr: real, multiplier: real, t: int, n: int)
    requires n > 0 && baseLr >= 0.0 && multiplier >= 1.0 && 0 <= t <= n
    ensures 0.0 <= RampStart(baseLr, multiplier) <= RampRate(baseLr, multiplier, t, n)
    ensures RampRate(baseLr, multiplier, t, n) <= RampTarget(baseLr, multiplier)
  {
    RampEndpoints(baseLr, multiplier, n);
    RampMonotone(baseLr, multiplier, 0, t, n);
    RampMonotone(baseLr, multiplier, t, n, n);
  }

  /**
   get_lr: one warmup rate per base rate, in order. The requires is get_lr's
   assertion (stepCount <= warmupSteps) together with the absence of a division
   by zero; for a nonnegative counter the two amount to 0 < warmupSteps.
   */
  function GetLr(baseLrs: seq<real>, multiplier: real, stepCount: nat, warmupSteps: int): (lrs: seq<real>)
    requires 0 < warmupSteps && stepCount <= warmupSteps
    ensures |lrs| == |baseLrs|
    ensures forall i :: 0 <= i < |baseLrs| ==>
              lrs[i] == RampRate(baseLrs[i], multiplier, stepCount, warmupSteps)
  {
    if baseLrs == [] then []
    else [RampRate(baseLrs[0], multiplier, stepCount, warmupSteps)]
         + GetLr(baseLrs[1..], multiplier, stepCount, warmupSteps)
  }

  /** The list `[b * multiplier for b in lrs]`, as handed to the post-warmup scheduler. */
  function Scaled(lrs: seq<real>, multiplier: real): (r: seq<real>)
    ensures |r| == |lrs|
    ensures forall i :: 0 <= i < |lrs| ==> r[i] == lrs[i] * multiplier
  {
    if lrs == [] then [] else [lrs[0] * multiplier] + Scaled(lrs[1..], multiplier)
  }

  /** At step 0 every group is at its ramp start; at the last warmup step the rates
      are exactly the multiplier-scaled base rates handed over at handoff. */
  lemma WarmupRatesEndpoints(baseLrs: seq<real>, multiplier: real, warmupSteps: int)
    requires 0 < warmupSteps
    ensures forall i :: 0 <= i < |baseLrs| ==>
              GetLr(baseLrs, multiplier, 0, warmupSteps)[i] == RampStart(baseLrs[i], multiplier)
    ensures GetLr(baseLrs, multiplier, warmupSteps, warmupSteps) == Scaled(baseLrs, multiplier)
  {
    var last := GetLr(baseLrs, multiplier, warmupSteps, warmupSteps);
    forall i | 0 <= i < |baseLrs|
      ensures GetLr(baseLrs, multiplier, 0, warmupSteps)[i] == RampStart(baseLrs[i], multiplier)
      ensures last[i] == Scaled(baseLrs, multiplier)[i]
    {
      RampEndpoints(baseLrs[i], multiplier, warmupSteps);
    }
  }

  /** With nonnegative base rates and multiplier >= 1, each warmup rate lies in
      [RampStart, base * multiplier], hence in [0, base * multiplier]. */
  lemma WarmupRatesBounded(baseLrs: seq<real>, multiplier: real, stepCount: nat, warmupSteps: int)
    requires 0 < warmupSteps && stepCount <= warmupSteps && multiplier >= 1.0
    requires forall i :: 0 <= i < |baseLrs| ==> baseLrs[i] >= 0.0
    ensures forall i :: 0 <= i < |baseLrs| ==>
              0.0 <= RampStart(baseLrs[i], multiplier) <= GetLr(baseLrs, multiplier, stepCount, warmupSteps)[i]
              && GetLr(baseLrs, multiplier, stepCount, warmupSteps)[i] <= baseLrs[i] * multiplier
  {
    forall i | 0 <= i < |baseLrs|
      ensures 0.0 <= RampStart(baseLrs[i], multiplier) <= GetLr(baseLrs, multiplier, stepCount, warmupSteps)[i]
      ensures GetLr(baseLrs, multiplier, stepCount, warmupSteps)[i] <= baseLrs[i] * multiplier
    {
      RampBounds(baseLrs[i], multiplier, stepCount, warmupSteps);
    }
  }

  /** Group by group, a later warmup step never has a smaller rate. */
  lemma WarmupRatesMonotone(baseLrs: seq<real>, multiplier: real, t1: nat, t2: nat, warmupSteps: int)
    requires 0 < warmupSteps && t1 <= t2 <= warmupSteps && multiplier >= 1.0
    requires forall i :: 0 <= i < |baseLrs| ==> baseLrs[i] >= 0.0
    ensures forall i :: 0 <= i < |baseLrs| ==>
              GetLr(baseLrs, multiplier, t1, warmupSteps)[i] <= GetLr(baseLrs, multiplier, t2, warmupSteps)[i]
  {
    forall i | 0 <= i < |baseLrs|
      ensures GetLr(baseLrs, multiplier, t1, warmupSteps)[i] <= GetLr(baseLrs, multiplier, t2, warmupSteps)[i]
    {
      RampMonotone(baseLrs[i], multiplier, t1, t2, warmupSteps);
    }
  }

  /** The demo configuration (multiplier 1, 200 warmup steps): rate 0 at step 0,
      half the base rate at step 100, the base rate at step 200. */
  lemma DemoConfiguration(baseLr: real)
    ensures RampRate(baseLr, 1.0, 0, 200) == 0.0
    ensures RampRate(baseLr, 1.0, 100, 200) == 0.5 * baseLr
    ensures RampRate(baseLr, 1.0, 200, 200) == baseLr
  {
    RampEndpoints(baseLr, 1.0, 200);
  }

  /** Multiplier 2 over 10 steps: half way through, the rate is 1.5 times the base rate. */
  lemma DoubleMultiplierMidpoint(baseLr: real)
    ensures RampRate(baseLr, 2.0, 5, 10) == 1.5 * baseLr
  {
  }
}
