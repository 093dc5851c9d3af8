/**
  Banded tariffs. The fee functions of utils.py are if/elif chains over
  ascending thresholds with inclusive upper bounds; a table of bands is the
  reference definition those chains are proved against.
 */
module Tiers {

  /** Values up to and including `ceiling`, and above the previous band's ceiling, pay `rate`. */
  datatype Band = Band(ceiling: int, rate: int)

  /** The rate of the first band whose ceiling is at least x; `top` above the last ceiling. */
  function RateFor(bands: seq<Band>, top: int, x: int): int
  {
    if bands == [] then top
    else if x <= bands[0].ceiling then bands[0].rate
    else RateFor(bands[1..], top, x)
  }

  /** Strictly ascending ceilings. */
  ghost predicate Sorted(bands: seq<Band>)
  {
    forall i, j :: 0 <= i < j < |bands| ==> bands[i].ceiling < bands[j].ceiling
  }

  /** Sorted, with rates that never decrease and never exceed `top`. */
  ghost predicate Ascending(bands: seq<Band>, top: int)
  {
    && Sorted(bands)
    && (forall i, j :: 0 <= i < j < |bands| ==> bands[i].rate <= bands[j].rate)
    && (forall i :: 0 <= i < |bands| ==> bands[i].rate <= top)
  }

  /** A value in the half-open interval (previous ceiling, ceiling] of band i pays that band's rate. */
  lemma {:induction false} BandSelected(bands: seq<Band>, top: int, x: int, i: int)
    requires Sorted(bands)
    requires 0 <= i < |bands| && x <= bands[i].ceiling && (i == 0 || bands[i - 1].ceiling < x)
    ensures RateFor(bands, top, x) == bands[i].rate
  {
    if i > 0 {
      assert bands[0].ceiling <= bands[i - 1].ceiling < x;
      assert Sorted(bands[1..]);
      BandSelected(bands[1..], top, x, i - 1);
    }
  }

  /** A value above every ceiling pays the top rate. */
  lemma {:induction false} AboveAllBands(bands: seq<Band>, top: int, x: int)
    requires forall i :: 0 <= i < |bands| ==> bands[i].ceiling < x
    ensures RateFor(bands, top, x) == top
  {
    if bands != [] {
      AboveAllBands(bands[1..], top, x);
    }
  }

  /** No value pays less than the first band's rate. */
  lemma {:induction false} FirstRateIsLeast(bands: seq<Band>, top: int, x: int)
    requires Ascending(bands, top) && bands != []
    ensures bands[0].rate <= RateFor(bands, top, x)
  {
    if bands[0].ceiling < x && |bands| > 1 {
      assert Ascending(bands[1..], top);
      FirstRateIsLeast(bands[1..], top, x);
    }
  }

  /** With ascending bands the rate never decreases as the value grows. */
  lemma {:induction false} RateMonotone(bands: seq<Band>, top: int, x: int, y: int)
    requires Ascending(bands, top) && x <= y
    ensures RateFor(bands, top, x) <= RateFor(bands, top, y)
  {
    if bands != [] {
      if x <= bands[0].ceiling {
        FirstRateIsLeast(bands, top, y);
      } else {
        assert Ascending(bands[1..], top);
        RateMonotone(bands[1..], top, x, y);
      }
    }
  }
}
