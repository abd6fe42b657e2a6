/**
 * The PCB inspection sampler of the fault uploader (`generate_fault_data`):
 * one uniform draw decides whether the inspected board has a fault, and when
 * it has, a second draw picks the fault kind by weight, the way
 * `random.choices(FAULT_TYPES, weights=FAULT_WEIGHTS)` does: it accumulates
 * the weights, scales the draw by their total and bisects.
 */
module Faults {
  import opened Wrappers

  /** Crack, discoloured oxidation, residual film, exposed copper, dent, foreign dot, foreign matter on the edge. */
  const FAULT_TYPES: seq<string> := ["裂纹", "氧化发色", "残膜", "露铜", "凹陷点", "异物点", "板边异物"]

  const FAULT_WEIGHTS: seq<real> := [25.1, 22.3, 22.3, 15.3, 9.6, 2.5, 2.5]

  const OVERALL_FAULT_PROBABILITY: real := 0.0742

  /** One inspection: when it happened, whether the board is faulty and, if so, the fault kind. */
  datatype FaultEvent = FaultEvent(time: int, hasFault: bool, faultType: Option<string>)

  /** A draw of `random.random()`. */
  predicate IsUnitDraw(u: real) {
    0.0 <= u < 1.0
  }

  /** The sum of a list of weights. */
  function Sum(ws: seq<real>): real {
    if ws == [] then 0.0 else Sum(ws[..|ws| - 1]) + ws[|ws| - 1]
  }

  predicate AllPositive(ws: seq<real>) {
    forall i :: 0 <= i < |ws| ==> ws[i] > 0.0
  }

  /** `list(accumulate(weights))`: entry `i` is the sum of the first `i + 1` weights. */
  function Accumulate(ws: seq<real>): (cum: seq<real>)
    ensures |cum| == |ws|
    ensures |ws| > 0 ==> cum[0] == ws[0]
    ensures forall i :: 0 < i < |ws| ==> cum[i] == cum[i - 1] + ws[i]
  {
    assert |ws| > 0 ==> ws[..1][..0] == [] && Sum(ws[..1]) == ws[0];
    assert forall i :: 0 <= i < |ws| ==> ws[..i + 1][..i] == ws[..i];
    seq(|ws|, i requires 0 <= i < |ws| => Sum(ws[..i + 1]))
  }

  /**
   * `bisect(cum, x, lo, hi)` (bisect_right) on an ascending list: the first
   * index in [lo, hi) whose entry exceeds `x`, or `hi` if there is none.
   */
  function Bisect(cum: seq<real>, x: real, lo: nat, hi: nat): (i: nat)
    requires lo <= hi <= |cum|
    ensures lo <= i <= hi
    ensures forall k :: lo <= k < i ==> cum[k] <= x
    ensures i < hi ==> x < cum[i]
    decreases hi - lo
  {
    if lo == hi then hi
    else if x < cum[lo] then lo
    else Bisect(cum, x, lo + 1, hi)
  }

  /** `random.choices(range(len(weights)), weights)[0]` for the draw `u`: the chosen index. */
  function Choose(ws: seq<real>, u: real): (i: nat)
    requires |ws| > 0
    ensures i < |ws|
  {
    var cum := Accumulate(ws);
    Bisect(cum, u * cum[|ws| - 1], 0, |ws| - 1)
  }

  /**
   * `generate_fault_data` for the clock reading `time`, the fault draw and
   * the kind draw (the kind draw is only consumed when there is a fault).
   */
  function GenerateFaultData(time: int, faultDraw: real, kindDraw: real): (e: FaultEvent)
    requires IsUnitDraw(faultDraw) && IsUnitDraw(kindDraw)
    ensures e.time == time
    ensures e.hasFault <==> faultDraw < OVERALL_FAULT_PROBABILITY
    ensures e.faultType.None? <==> !e.hasFault
    ensures e.faultType.Some? ==> e.faultType.value in FAULT_TYPES
  {
    var hasFault := faultDraw < OVERALL_FAULT_PROBABILITY;
    var faultType := if hasFault then Some(FAULT_TYPES[Choose(FAULT_WEIGHTS, kindDraw)]) else None;
    FaultEvent(time, hasFault, faultType)
  }

  /** The fault table is consistent: one positive weight per kind, seven kinds, all distinct. */
  lemma FaultTableWellFormed()
    ensures |FAULT_TYPES| == |FAULT_WEIGHTS| == 7
    ensures AllPositive(FAULT_WEIGHTS)
    ensures forall i, j :: 0 <= i < j < |FAULT_TYPES| ==> FAULT_TYPES[i] != FAULT_TYPES[j]
  {
  }

  lemma {:induction false} SumPrefixGrows(ws: seq<real>, i: nat, j: nat)
    requires AllPositive(ws)
    requires i < j <= |ws|
    ensures Sum(ws[..i]) < Sum(ws[..j])
    decreases j
  {
    assert ws[..j][..j - 1] == ws[..j - 1];
    if i < j - 1 {
      SumPrefixGrows(ws, i, j - 1);
    }
  }

  predicate Ascending(cum: seq<real>) {
    forall a, b :: 0 <= a < b < |cum| ==> cum[a] < cum[b]
  }

  /** With positive weights the accumulated list is strictly ascending. */
  lemma AccumulateAscending(ws: seq<real>)
    requires AllPositive(ws)
    ensures Ascending(Accumulate(ws))
  {
    var cum := Accumulate(ws);
    forall a, b | 0 <= a < b < |cum| ensures cum[a] < cum[b] {
      assert cum[a] == Sum(ws[..a + 1]) && cum[b] == Sum(ws[..b + 1]);
      SumPrefixGrows(ws, a + 1, b + 1);
    }
  }

  /** The accumulated list ends with the total weight. */
  lemma AccumulateLast(ws: seq<real>)
    requires |ws| > 0
    ensures Accumulate(ws)[|ws| - 1] == Sum(ws)
  {
    assert ws[..|ws|] == ws;
  }

  /** On an ascending list, bisect returns `i` exactly when `x` lies in the `i`-th bucket. */
  lemma {:induction false} BisectBucket(cum: seq<real>, x: real, lo: nat, hi: nat, i: nat)
    requires lo <= hi <= |cum|
    requires Ascending(cum)
    requires lo == 0 || cum[lo - 1] <= x
    ensures Bisect(cum, x, lo, hi) == i <==>
      lo <= i <= hi && (i == lo || cum[i - 1] <= x) && (i == hi || x < cum[i])
    decreases hi - lo
  {
    if lo < hi && cum[lo] <= x {
      BisectBucket(cum, x, lo + 1, hi, i);
    }
  }

  /** Bisecting the accumulated weights at `x` finds the weight whose running-total interval holds `x`. */
  lemma AccumulatedBucket(ws: seq<real>, x: real, i: nat)
    requires |ws| > 0 && AllPositive(ws) && 0.0 <= x
    ensures Bisect(Accumulate(ws), x, 0, |ws| - 1) == i <==>
      i < |ws| && Sum(ws[..i]) <= x && (i == |ws| - 1 || x < Sum(ws[..i + 1]))
  {
    var cum := Accumulate(ws);
    AccumulateAscending(ws);
    BisectBucket(cum, x, 0, |ws| - 1, i);
    if 0 < i < |ws| {
      assert cum[i - 1] == Sum(ws[..i]);
    }
  }

  /** The fault weights add up to 99.6: `random.choices` normalises them by that total. */
  lemma FaultWeightTotal()
    ensures Sum(FAULT_WEIGHTS) == 99.6
  {
    assert FAULT_WEIGHTS[..0] == [];
    assert FAULT_WEIGHTS[..1][..0] == FAULT_WEIGHTS[..0];
    assert Sum(FAULT_WEIGHTS[..1]) == 25.1;
    assert FAULT_WEIGHTS[..2][..1] == FAULT_WEIGHTS[..1];
    assert Sum(FAULT_WEIGHTS[..2]) == 47.4;
    assert FAULT_WEIGHTS[..3][..2] == FAULT_WEIGHTS[..2];
    assert Sum(FAULT_WEIGHTS[..3]) == 69.7;
    assert FAULT_WEIGHTS[..4][..3] == FAULT_WEIGHTS[..3];
    assert Sum(FAULT_WEIGHTS[..4]) == 85.0;
    assert FAULT_WEIGHTS[..5][..4] == FAULT_WEIGHTS[..4];
    assert Sum(FAULT_WEIGHTS[..5]) == 94.6;
    assert FAULT_WEIGHTS[..6][..5] == FAULT_WEIGHTS[..5];
    assert Sum(FAULT_WEIGHTS[..6]) == 97.1;
    assert FAULT_WEIGHTS[..7][..6] == FAULT_WEIGHTS[..6];
    assert FAULT_WEIGHTS[..7] == FAULT_WEIGHTS;
  }

  /**
   * The weighted choice of a fault kind: kind `i` is chosen exactly when the
   * scaled kind draw lies between the total weight of the kinds before `i`
   * and the total up to and including `i`. So each kind is chosen on an
   * interval of draws whose length is its weight over the total.
   */
  lemma FaultKindBucket(time: int, faultDraw: real, kindDraw: real, i: nat)
    requires IsUnitDraw(faultDraw) && IsUnitDraw(kindDraw)
    requires faultDraw < OVERALL_FAULT_PROBABILITY
    requires i < |FAULT_TYPES|
    ensures GenerateFaultData(time, faultDraw, kindDraw).faultType == Some(FAULT_TYPES[i]) <==>
      Sum(FAULT_WEIGHTS[..i]) <= kindDraw * 99.6
      && (i == |FAULT_WEIGHTS| - 1 || kindDraw * 99.6 < Sum(FAULT_WEIGHTS[..i + 1]))
  {
    FaultTableWellFormed();
    FaultWeightTotal();
    AccumulateLast(FAULT_WEIGHTS);
    var cum := Accumulate(FAULT_WEIGHTS);
    var x := kindDraw * 99.6;
    assert Choose(FAULT_WEIGHTS, kindDraw) == Bisect(cum, x, 0, 6);
    AccumulatedBucket(FAULT_WEIGHTS, x, i);
  }
}
