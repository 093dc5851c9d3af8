/**
  The fee formulas of utils.py: excise by horsepower and by engine volume,
  the recycling (utilization) fee, the customs clearance fee and the
  horsepower estimate from engine volume.
 */
module Fees {
  import opened Tiers

  /** Excise multipliers per horsepower for the bands <=90, <=150, ..., <=500 hp. */
  const PowerBands: seq<Band> :=
    [Band(90, 0), Band(150, 61), Band(200, 583), Band(300, 955), Band(400, 1628), Band(500, 1685)]

  /** The excise multiplier above the last band. */
  const TopPowerRate: int := 1740

  /** The same multipliers keyed on engine volume in cubic centimetres. */
  const VolumeBands: seq<Band> :=
    [Band(1000, 0), Band(1500, 61), Band(2000, 583), Band(3000, 955), Band(4000, 1628), Band(5000, 1685)]

  /** Clearance fee per inclusive price ceiling, in roubles. */
  const PriceBands: seq<Band> :=
    [Band(200000, 1067), Band(450000, 2134), Band(1200000, 4269), Band(2700000, 11746),
     Band(4200000, 16524), Band(5500000, 21344), Band(7000000, 27540)]

  /** The clearance fee above the last price ceiling. */
  const TopPriceFee: int := 30000

  lemma PowerBandsAscending()
    ensures Ascending(PowerBands, TopPowerRate)
  {
  }

  lemma PriceBandsAscending()
    ensures Ascending(PriceBands, TopPriceFee)
  {
  }

  lemma VolumeBandsSorted()
    ensures Sorted(VolumeBands)
  {
  }

  /** The multiplier of the horsepower band a value falls in, read off the table. */
  lemma {:induction false} PowerRateAt(hp: int)
    ensures RateFor(PowerBands, TopPowerRate, hp)
         == if hp <= 90 then 0 else if hp <= 150 then 61 else if hp <= 200 then 583
            else if hp <= 300 then 955 else if hp <= 400 then 1628 else if hp <= 500 then 1685 else 1740
  {
    PowerBandsAscending();
    if hp <= 90 { BandSelected(PowerBands, TopPowerRate, hp, 0); }
    else if hp <= 150 { BandSelected(PowerBands, TopPowerRate, hp, 1); }
    else if hp <= 200 { BandSelected(PowerBands, TopPowerRate, hp, 2); }
    else if hp <= 300 { BandSelected(PowerBands, TopPowerRate, hp, 3); }
    else if hp <= 400 { BandSelected(PowerBands, TopPowerRate, hp, 4); }
    else if hp <= 500 { BandSelected(PowerBands, TopPowerRate, hp, 5); }
    else { AboveAllBands(PowerBands, TopPowerRate, hp); }
  }

  /** The multiplier of the volume band a value falls in, read off the table. */
  lemma {:induction false} VolumeRateAt(cc: int)
    ensures RateFor(VolumeBands, TopPowerRate, cc)
         == if cc <= 1000 then 0 else if cc <= 1500 then 61 else if cc <= 2000 then 583
            else if cc <= 3000 then 955 else if cc <= 4000 then 1628 else if cc <= 5000 then 1685 else 1740
  {
    VolumeBandsSorted();
    if cc <= 1000 { BandSelected(VolumeBands, TopPowerRate, cc, 0); }
    else if cc <= 1500 { BandSelected(VolumeBands, TopPowerRate, cc, 1); }
    else if cc <= 2000 { BandSelected(VolumeBands, TopPowerRate, cc, 2); }
    else if cc <= 3000 { BandSelected(VolumeBands, TopPowerRate, cc, 3); }
    else if cc <= 4000 { BandSelected(VolumeBands, TopPowerRate, cc, 4); }
    else if cc <= 5000 { BandSelected(VolumeBands, TopPowerRate, cc, 5); }
    else { AboveAllBands(VolumeBands, TopPowerRate, cc); }
  }

  /** The clearance fee of the price band a value falls in, read off the table. */
  lemma {:induction false} PriceFeeAt(p: int)
    ensures RateFor(PriceBands, TopPriceFee, p)
         == if p <= 200000 then 1067 else if p <= 450000 then 2134 else if p <= 1200000 then 4269
            else if p <= 2700000 then 11746 else if p <= 4200000 then 16524
            else if p <= 5500000 then 21344 else if p <= 7000000 then 27540 else 30000
  {
    PriceBandsAscending();
    if p <= 200000 { BandSelected(PriceBands, TopPriceFee, p, 0); }
    else if p <= 450000 { BandSelected(PriceBands, TopPriceFee, p, 1); }
    else if p <= 1200000 { BandSelected(PriceBands, TopPriceFee, p, 2); }
    else if p <= 2700000 { BandSelected(PriceBands, TopPriceFee, p, 3); }
    else if p <= 4200000 { BandSelected(PriceBands, TopPriceFee, p, 4); }
    else if p <= 5500000 { BandSelected(PriceBands, TopPriceFee, p, 5); }
    else if p <= 7000000 { BandSelected(PriceBands, TopPriceFee, p, 6); }
    else { AboveAllBands(PriceBands, TopPriceFee, p); }
  }

  /** calculate_excise_russia: the excise is the horsepower times its band's multiplier. */
  function ExciseRussia(horsePower: int): (excise: int)
    ensures excise == 0 <==> horsePower <= 90
    ensures horsePower > 90 ==> excise >= 61 * horsePower
  {
    if horsePower <= 90 then 0
    else if horsePower <= 150 then horsePower * 61
    else if horsePower <= 200 then horsePower * 583
    else if horsePower <= 300 then horsePower * 955
    else if horsePower <= 400 then horsePower * 1628
    else if horsePower <= 500 then horsePower * 1685
    else horsePower * 1740
  }

  /** The chain of calculate_excise_russia agrees with the band table on every input. */
  lemma ExciseMatchesBands(horsePower: int)
    ensures ExciseRussia(horsePower) == horsePower * RateFor(PowerBands, TopPowerRate, horsePower)
  {
    PowerRateAt(horsePower);
  }

  lemma MulMonotone(a: int, b: int, ra: int, rb: int)
    requires 0 <= a <= b && 0 <= ra <= rb
    ensures a * ra <= b * rb
  {
    assert a * ra <= b * ra;
    assert b * ra <= b * rb;
  }

  /** More horsepower never pays less excise. */
  lemma ExciseMonotone(a: int, b: int)
    requires 0 <= a <= b
    ensures ExciseRussia(a) <= ExciseRussia(b)
  {
    PowerBandsAscending();
    ExciseMatchesBands(a);
    ExciseMatchesBands(b);
    RateMonotone(PowerBands, TopPowerRate, a, b);
    FirstRateIsLeast(PowerBands, TopPowerRate, a);
    MulMonotone(a, b, RateFor(PowerBands, TopPowerRate, a), RateFor(PowerBands, TopPowerRate, b));
  }

  /**
    calculate_excise_by_volume, with exact rational arithmetic: the volume in
    litres times a hundred (about one horsepower per ten cubic centimetres)
    times the band's multiplier.
   */
  function ExciseByVolume(engineVolume: int): (excise: real)
    ensures excise == 0.0 <==> engineVolume <= 1000
    ensures engineVolume > 1000 ==> excise >= 6.1 * engineVolume as real
  {
    var liters := engineVolume as real / 1000.0;
    if liters <= 1.0 then 0.0
    else if 1.0 < liters <= 1.5 then 61.0 * liters * 100.0
    else if 1.5 < liters <= 2.0 then 583.0 * liters * 100.0
    else if 2.0 < liters <= 3.0 then 955.0 * liters * 100.0
    else if 3.0 < liters <= 4.0 then 1628.0 * liters * 100.0
    else if 4.0 < liters <= 5.0 then 1685.0 * liters * 100.0
    else 1740.0 * liters * 100.0
  }

  /** The chain of calculate_excise_by_volume is the volume band table times the volume, over ten. */
  lemma ExciseByVolumeMatchesBands(engineVolume: int)
    ensures ExciseByVolume(engineVolume) == (RateFor(VolumeBands, TopPowerRate, engineVolume) * engineVolume) as real / 10.0
  {
    VolumeRateAt(engineVolume);
  }

  /**
    Above one litre the volume excise charges the horsepower multiplier of the
    estimate "ten cubic centimetres per horsepower", rounded up.
   */
  lemma VolumeExciseUsesPowerRates(engineVolume: int)
    requires engineVolume > 1000
    ensures ExciseByVolume(engineVolume)
         == (RateFor(PowerBands, TopPowerRate, (engineVolume + 9) / 10) * engineVolume) as real / 10.0
  {
    var hp := (engineVolume + 9) / 10;
    assert 10 * hp - 9 <= engineVolume <= 10 * hp;
    PowerRateAt(hp);
    VolumeRateAt(engineVolume);
    ExciseByVolumeMatchesBands(engineVolume);
  }

  /** The only age label that selects the coefficients for cars under three years. */
  const YoungLabel: string := "до 3 лет"

  /** The base rate for passenger cars, in roubles. */
  const BaseRate: int := 20000

  /** The recycling coefficient in hundredths, by age label and engine volume. */
  function Coefficient(engineVolume: int, age: string): int
  {
    if age == YoungLabel then
      if engineVolume <= 1000 then 17
      else if engineVolume <= 2000 then 17
      else if engineVolume <= 3000 then 17
      else if engineVolume <= 3500 then 8973
      else 11426
    else
      if engineVolume <= 1000 then 26
      else if engineVolume <= 2000 then 26
      else if engineVolume <= 3000 then 26
      else if engineVolume <= 3500 then 13736
      else 15020
  }

  /**
    calculate_recycling_fee: base rate times coefficient. Every product is a
    whole number of roubles, so rounding to two decimals changes nothing; the
    five volume bands collapse to three amounts per age group.
   */
  function RecyclingFee(engineVolume: int, age: string): (fee: int)
    ensures fee * 100 == BaseRate * Coefficient(engineVolume, age)
    ensures age == YoungLabel ==>
      fee == (if engineVolume <= 3000 then 3400 else if engineVolume <= 3500 then 1794600 else 2285200)
    ensures age != YoungLabel ==>
      fee == (if engineVolume <= 3000 then 5200 else if engineVolume <= 3500 then 2747200 else 3004000)
  {
    BaseRate * Coefficient(engineVolume, age) / 100
  }

  /** A younger car never pays more than an older one, and a bigger engine never pays less. */
  lemma RecyclingFeeOrdered(v: int, w: int, other: string)
    requires v <= w && other != YoungLabel
    ensures RecyclingFee(v, YoungLabel) < RecyclingFee(v, other)
    ensures RecyclingFee(v, YoungLabel) <= RecyclingFee(w, YoungLabel)
    ensures RecyclingFee(v, other) <= RecyclingFee(w, other)
  {
  }

  /** calculate_customs_fee: the clearance fee of the price's band, 30000 above the last ceiling. */
  function CustomsFee(carPriceRub: int): (fee: int)
    ensures fee in {1067, 2134, 4269, 11746, 16524, 21344, 27540, 30000}
  {
    if carPriceRub <= 200000 then 1067
    else if carPriceRub <= 450000 then 2134
    else if carPriceRub <= 1200000 then 4269
    else if carPriceRub <= 2700000 then 11746
    else if carPriceRub <= 4200000 then 16524
    else if carPriceRub <= 5500000 then 21344
    else if carPriceRub <= 7000000 then 27540
    else 30000
  }

  /** The chain of calculate_customs_fee agrees with the price band table on every input. */
  lemma CustomsFeeMatchesBands(carPriceRub: int)
    ensures CustomsFee(carPriceRub) == RateFor(PriceBands, TopPriceFee, carPriceRub)
  {
    PriceFeeAt(carPriceRub);
  }

  /** A dearer car never pays a smaller clearance fee. */
  lemma {:induction false} CustomsFeeMonotone(a: int, b: int)
    requires a <= b
    ensures CustomsFee(a) <= CustomsFee(b)
  {
    PriceBandsAscending();
    CustomsFeeMatchesBands(a);
    CustomsFeeMatchesBands(b);
    RateMonotone(PriceBands, TopPriceFee, a, b);
  }

  function Abs(x: int): nat { if x < 0 then -x else x }

  /**
    calculate_horse_power: round(engine_volume / 15). For an integer volume the
    quotient is never exactly halfway between two integers, so the result is
    the unique nearest integer.
   */
  function HorsePower(engineVolume: int): (hp: int)
    ensures -7 <= 15 * hp - engineVolume <= 7
  {
    (engineVolume + 7) / 15
  }

  /** Every other integer is strictly farther from engine_volume / 15. */
  lemma HorsePowerNearest(engineVolume: int, k: int)
    requires k != HorsePower(engineVolume)
    ensures Abs(15 * k - engineVolume) > Abs(15 * HorsePower(engineVolume) - engineVolume)
  {
    var hp := HorsePower(engineVolume);
    assert k < hp || k > hp;
  }
}
