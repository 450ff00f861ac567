/**
 * The boundary root-finder of src/utils/helpers.ts: inverseLagrange, which
 * evaluates at a target the Lagrange polynomial through the points
 * (y[i], x[i]), and interpolateTime, which samples an angle-valued function
 * of time at day offsets and solves for the offset at which it reaches a
 * target.  A JavaScript division by zero makes the sum Infinity or NaN, and
 * no later term brings it back to a finite number; the model reports such a
 * result as None.
 */
module Interpolation {
  import opened Wrappers
  import opened Foreign
  import opened Angles

  predicate Distinct(y: seq<real>) {
    forall i, j :: 0 <= i < j < |y| ==> y[i] != y[j]
  }

  /** The product of (target - y[j]) over j < m, j != i: the numerator the inner loop builds. */
  function Numer(y: seq<real>, target: real, i: int, m: nat): real
    requires m <= |y|
  {
    if m == 0 then 1.0
    else if m - 1 == i then Numer(y, target, i, m - 1)
    else Numer(y, target, i, m - 1) * (target - y[m - 1])
  }

  /** The product of (y[i] - y[j]) over j < m, j != i: the denominator the inner loop builds. */
  function Denom(y: seq<real>, i: nat, m: nat): real
    requires i < |y| && m <= |y|
  {
    if m == 0 then 1.0
    else if m - 1 == i then Denom(y, i, m - 1)
    else Denom(y, i, m - 1) * (y[i] - y[m - 1])
  }

  /** A denominator vanishes exactly when another node among the first m repeats node i. */
  lemma {:induction false} DenomZero(y: seq<real>, i: nat, m: nat)
    requires i < |y| && m <= |y|
    ensures Denom(y, i, m) == 0.0 <==> exists j :: 0 <= j < m && j != i && y[j] == y[i]
  {
    if m > 0 {
      DenomZero(y, i, m - 1);
    }
  }

  /** All denominators are non-zero exactly when the nodes are pairwise distinct. */
  lemma DenomsNonZero(y: seq<real>)
    ensures (forall i :: 0 <= i < |y| ==> Denom(y, i, |y|) != 0.0) <==> Distinct(y)
  {
    forall i | 0 <= i < |y| {
      DenomZero(y, i, |y|);
    }
    if !Distinct(y) {
      var i, j :| 0 <= i < j < |y| && y[i] == y[j];
      assert Denom(y, i, |y|) == 0.0;
    }
  }

  /** Term i of the sum: numer * x[i] / denom. */
  function Term(x: seq<real>, y: seq<real>, target: real, i: nat): real
    requires |x| == |y| && i < |x|
    requires Denom(y, i, |y|) != 0.0
  {
    Numer(y, target, i, |y|) * x[i] / Denom(y, i, |y|)
  }

  /** The sum of the first m terms. */
  function LagrangeSum(x: seq<real>, y: seq<real>, target: real, m: nat): real
    requires |x| == |y| && m <= |x|
    requires forall i :: 0 <= i < m ==> Denom(y, i, |y|) != 0.0
  {
    if m == 0 then 0.0 else LagrangeSum(x, y, target, m - 1) + Term(x, y, target, m - 1)
  }

  /** What inverseLagrange(x, y, target) returns: None when some denominator is zero. */
  function InverseLagrangeValue(x: seq<real>, y: seq<real>, target: real): Option<real>
    requires |x| == |y|
  {
    DenomsNonZero(y);
    if Distinct(y) then Some(LagrangeSum(x, y, target, |x|)) else None
  }

  /** The inner loop of inverseLagrange: the numerator and denominator of term i. */
  method TermFactors(y: seq<real>, target: real, i: nat) returns (numer: real, denom: real)
    requires i < |y|
    ensures numer == Numer(y, target, i, |y|)
    ensures denom == Denom(y, i, |y|)
  {
    numer, denom := 1.0, 1.0;
    var j := 0;
    while j < |y|
      invariant 0 <= j <= |y|
      invariant numer == Numer(y, target, i, j)
      invariant denom == Denom(y, i, j)
    {
      if j != i {
        numer := numer * (target - y[j]);
        denom := denom * (y[i] - y[j]);
      }
      j := j + 1;
    }
  }

  /** One pass of the outer loop adds term i to the sum of the terms before it. */
  lemma LagrangeStep(x: seq<real>, y: seq<real>, target: real, i: nat)
    requires |x| == |y| && i < |x|
    requires forall k :: 0 <= k <= i ==> Denom(y, k, |y|) != 0.0
    ensures LagrangeSum(x, y, target, i + 1)
         == LagrangeSum(x, y, target, i) + Numer(y, target, i, |y|) * x[i] / Denom(y, i, |y|)
  {
  }

  method InverseLagrange(x: seq<real>, y: seq<real>, target: real) returns (r: Option<real>)
    requires |x| == |y|
    ensures r == InverseLagrangeValue(x, y, target)
    ensures r.Some? <==> Distinct(y)
  {
    var total := 0.0;
    var finite := true;
    var i := 0;
    while i < |x|
      invariant 0 <= i <= |x|
      invariant finite <==> forall k :: 0 <= k < i ==> Denom(y, k, |y|) != 0.0
      invariant finite ==> total == LagrangeSum(x, y, target, i)
    {
      var numer, denom := TermFactors(y, target, i);
      if denom == 0.0 {
        finite := false;
      } else if finite {
        LagrangeStep(x, y, target, i);
        total := total + numer * x[i] / denom;
      }
      i := i + 1;
    }
    DenomsNonZero(y);
    r := if finite then Some(total) else None;
  }

  /** A numerator containing the factor (target - y[k]) with target == y[k] vanishes. */
  lemma {:induction false} NumerVanishes(y: seq<real>, i: int, k: nat, m: nat)
    requires m <= |y| && k < m && k != i
    ensures Numer(y, y[k], i, m) == 0.0
  {
    if k < m - 1 {
      NumerVanishes(y, i, k, m - 1);
    }
  }

  /** At target == y[k], the numerator of term k equals its denominator. */
  lemma {:induction false} NumerMatchesDenom(y: seq<real>, k: nat, m: nat)
    requires k < |y| && m <= |y|
    ensures Numer(y, y[k], k, m) == Denom(y, k, m)
  {
    if m > 0 {
      NumerMatchesDenom(y, k, m - 1);
    }
  }

  lemma {:induction false} PartialSumAtNode(x: seq<real>, y: seq<real>, k: nat, m: nat)
    requires |x| == |y| && Distinct(y) && k < |x| && m <= |x|
    requires forall i :: 0 <= i < |y| ==> Denom(y, i, |y|) != 0.0
    ensures LagrangeSum(x, y, y[k], m) == if k < m then x[k] else 0.0
  {
    if m > 0 {
      PartialSumAtNode(x, y, k, m - 1);
      if m - 1 == k {
        NumerMatchesDenom(y, k, |y|);
        assert Term(x, y, y[k], k) == x[k];
      } else {
        NumerVanishes(y, m - 1, k, |y|);
        assert Term(x, y, y[k], m - 1) == 0.0;
      }
    }
  }

  /** With distinct nodes, interpolating at a node's value returns that node's x. */
  lemma InverseLagrangeReproducesNodes(x: seq<real>, y: seq<real>, k: nat)
    requires |x| == |y| && Distinct(y) && k < |x|
    ensures InverseLagrangeValue(x, y, y[k]) == Some(x[k])
  {
    DenomsNonZero(y);
    PartialSumAtNode(x, y, k, |x|);
  }

  /** The samples interpolateTime takes: f at each offset from start, normalised, in offset order. */
  function Samples(f: Instant -> real, start: Instant, offsets: seq<real>): (s: seq<real>)
    ensures |s| == |offsets|
    ensures forall i :: 0 <= i < |s| ==> 0.0 <= s[i] < 360.0
  {
    if |offsets| == 0 then []
    else Samples(f, start, offsets[..|offsets| - 1]) + [Mod360(f(AddDays(start, offsets[|offsets| - 1])))]
  }

  /** Sample i is the normalised value of f at offset i. */
  lemma {:induction false} SampleAt(f: Instant -> real, start: Instant, offsets: seq<real>, i: nat)
    requires i < |offsets|
    ensures Samples(f, start, offsets)[i] == Mod360(f(AddDays(start, offsets[i])))
  {
    if i < |offsets| - 1 {
      SampleAt(f, start, offsets[..|offsets| - 1], i);
    }
  }

  /** The default sampling window: five points over one day. */
  const DefaultOffsets: seq<real> := [0.0, 0.25, 0.5, 0.75, 1.0]

  /** An instant moved by an interpolated day offset; None stays None. */
  function ShiftBy(start: Instant, frac: Option<real>): Option<Instant> {
    match frac
    case Some(d) => Some(AddDays(start, d))
    case None => None
  }

  /** What interpolateTime returns. */
  function Interpolated(start: Instant, target: real, f: Instant -> real, offsets: seq<real>): Option<Instant> {
    ShiftBy(start, InverseLagrangeValue(offsets, Samples(f, start, offsets), target))
  }

  method InterpolateTime(start: Instant, target: real, f: Instant -> real, offsets: seq<real>)
    returns (endTime: Option<Instant>)
    ensures endTime == Interpolated(start, target, f, offsets)
    ensures endTime.Some? <==> Distinct(Samples(f, start, offsets))
  {
    var samples: seq<real> := [];
    var k := 0;
    while k < |offsets|
      invariant 0 <= k <= |offsets|
      invariant samples == Samples(f, start, offsets[..k])
    {
      var sampleTime := AddDays(start, offsets[k]);
      var value := f(sampleTime);
      value := Mod360(value);
      assert offsets[..k + 1][..k] == offsets[..k];
      samples := samples + [value];
      k := k + 1;
    }
    assert offsets[..|offsets|] == offsets;
    var frac := InverseLagrange(offsets, samples, target);
    endTime := ShiftBy(start, frac);
  }

  /** With distinct samples, a target equal to sample k yields the instant at offset k. */
  lemma InterpolatedAtSample(start: Instant, f: Instant -> real, offsets: seq<real>, k: nat)
    requires k < |offsets| && Distinct(Samples(f, start, offsets))
    ensures Interpolated(start, Samples(f, start, offsets)[k], f, offsets) == Some(AddDays(start, offsets[k]))
  {
    InverseLagrangeReproducesNodes(offsets, Samples(f, start, offsets), k);
  }
}
