/**
 * The external float-type fuel sensor of the split variant: a voltage divider read
 * by the ESP32 ADC, converted to a float resistance and then to a fill percentage.
 */
module FuelSensor {
  import opened D300Types

  /** Samples averaged per reading. */
  const ADC_SAMPLES: nat := 10
  /** Full scale of the 12-bit ADC. */
  const ADC_MAX: real := 4095.0

  /** Arduino's `constrain`. */
  function Constrain(x: real, lo: real, hi: real): (r: real)
    requires lo <= hi
    ensures lo <= r <= hi
    ensures lo <= x <= hi ==> r == x
  {
    if x < lo then lo else if x > hi then hi else x
  }

  /** The linear calibration curve between the empty and the full resistance. */
  function Interpolate(resistance: real): real {
    (resistance - FUEL_EMPTY_RESISTANCE) / (FUEL_FULL_RESISTANCE - FUEL_EMPTY_RESISTANCE) * 100.0
  }

  /**
   * `resistanceToFuelLevel`: 0 % at or below the empty resistance, 100 % at or above
   * the full one, the calibration line in between.
   */
  function ResistanceToFuelLevel(resistance: real): real {
    if resistance <= FUEL_EMPTY_RESISTANCE then 0.0
    else if resistance >= FUEL_FULL_RESISTANCE then 100.0
    else Constrain(Interpolate(resistance), 0.0, 100.0)
  }

  /** The level is a percentage: clamped at both ends, and strictly inside on the calibration line. */
  lemma ResistanceToFuelLevelRange(resistance: real)
    ensures 0.0 <= ResistanceToFuelLevel(resistance) <= 100.0
    ensures resistance <= FUEL_EMPTY_RESISTANCE ==> ResistanceToFuelLevel(resistance) == 0.0
    ensures resistance >= FUEL_FULL_RESISTANCE ==> ResistanceToFuelLevel(resistance) == 100.0
    ensures FUEL_EMPTY_RESISTANCE < resistance < FUEL_FULL_RESISTANCE ==>
              ResistanceToFuelLevel(resistance) == Interpolate(resistance) &&
              0.0 < ResistanceToFuelLevel(resistance) < 100.0
  {
  }

  /** More resistance never means less fuel. */
  lemma ResistanceToFuelLevelMonotone(a: real, b: real)
    requires a <= b
    ensures ResistanceToFuelLevel(a) <= ResistanceToFuelLevel(b)
  {
    ResistanceToFuelLevelRange(a);
    ResistanceToFuelLevelRange(b);
  }

  /** The calibration line meets the clamps at both ends, so the curve is continuous there. */
  lemma InterpolateMeetsClamps()
    ensures Interpolate(FUEL_EMPTY_RESISTANCE) == 0.0
    ensures Interpolate(FUEL_FULL_RESISTANCE) == 100.0
  {
  }

  /** The float resistance behind a divider output of `v` volts. */
  function ShamandraResistance(v: real): real
    requires 0.0 < v < ESP32_VREF
  {
    var num, den := v * (R1 + R2), ESP32_VREF - v;
    assert den > 0.0;
    num / den
  }

  /** Inside the divider's range the resistance is positive. */
  lemma ShamandraResistancePositive(v: real)
    requires 0.0 < v < ESP32_VREF
    ensures ShamandraResistance(v) > 0.0
  {
    var num, den := v * (R1 + R2), ESP32_VREF - v;
    assert R1 + R2 > 0.0;
    assert num > 0.0 by {
      assert v * (R1 + R2) > 0.0 * (R1 + R2);
    }
    assert den > 0.0;
    PositiveQuotient(num, den);
  }

  /** The quotient of two positive reals is positive. */
  lemma PositiveQuotient(num: real, den: real)
    requires num > 0.0 && den > 0.0
    ensures num / den > 0.0
  {
    assert num / den * den == num;
  }

  /** The float resistance grows with the measured voltage. */
  lemma {:induction false} ShamandraResistanceMonotone(v1: real, v2: real)
    requires 0.0 < v1 <= v2 < ESP32_VREF
    ensures ShamandraResistance(v1) <= ShamandraResistance(v2)
  {
    var d1, d2 := ESP32_VREF - v1, ESP32_VREF - v2;
    assert 0.0 < d2 <= d1;
    assert v1 * d2 <= v2 * d1 by {
      assert v1 * d2 == v1 * ESP32_VREF - v1 * v2;
      assert v2 * d1 == v2 * ESP32_VREF - v1 * v2;
    }
    var k := R1 + R2;
    assert v1 / d1 <= v2 / d2 by {
      assert v1 / d1 == (v1 * d2) / (d1 * d2);
      assert v2 / d2 == (v2 * d1) / (d1 * d2);
    }
    assert ShamandraResistance(v1) == k * (v1 / d1);
    assert ShamandraResistance(v2) == k * (v2 / d2);
  }

  /**
   * `calculateFuelLevel`: -1 for a voltage at or outside the divider's range,
   * otherwise the fill percentage of the float resistance the voltage implies.
   */
  function CalculateFuelLevel(adcVoltage: real): real {
    if adcVoltage >= ESP32_VREF || adcVoltage <= 0.0 then -1.0
    else ResistanceToFuelLevel(ShamandraResistance(adcVoltage))
  }

  /** The error value -1 is reported exactly outside the divider's range; inside it the level is a percentage. */
  lemma CalculateFuelLevelSpec(adcVoltage: real)
    ensures CalculateFuelLevel(adcVoltage) == -1.0 <==> (adcVoltage >= ESP32_VREF || adcVoltage <= 0.0)
    ensures CalculateFuelLevel(adcVoltage) != -1.0 ==> 0.0 <= CalculateFuelLevel(adcVoltage) <= 100.0
    ensures 0.0 < adcVoltage < ESP32_VREF ==>
              CalculateFuelLevel(adcVoltage) == ResistanceToFuelLevel(ShamandraResistance(adcVoltage))
  {
    if 0.0 < adcVoltage < ESP32_VREF {
      ResistanceToFuelLevelRange(ShamandraResistance(adcVoltage));
    }
  }

  /** Inside the divider's range a higher voltage never reports less fuel. */
  lemma CalculateFuelLevelMonotone(v1: real, v2: real)
    requires 0.0 < v1 <= v2 < ESP32_VREF
    ensures CalculateFuelLevel(v1) <= CalculateFuelLevel(v2)
  {
    ShamandraResistanceMonotone(v1, v2);
    ResistanceToFuelLevelMonotone(ShamandraResistance(v1), ShamandraResistance(v2));
  }

  /** The sum of the ADC samples. */
  function SumOf(samples: seq<int>): int
    decreases |samples|
  {
    if samples == [] then 0 else SumOf(samples[..|samples| - 1]) + samples[|samples| - 1]
  }

  /** The voltage an ADC sum stands for: the sample average over full scale, times the reference. */
  function AdcVoltage(adcSum: int): real {
    ((adcSum as real / ADC_SAMPLES as real) / ADC_MAX) * ESP32_VREF
  }

  /**
   * `readFuelADC`: the level of the averaged voltage of `ADC_SAMPLES` successive
   * `analogRead` results, given here as `samples`.
   */
  method ReadFuelADC(samples: seq<int>) returns (level: real)
    requires |samples| == ADC_SAMPLES
    ensures level == CalculateFuelLevel(AdcVoltage(SumOf(samples)))
  {
    var adcSum := 0;
    var i := 0;
    while i < ADC_SAMPLES
      invariant 0 <= i <= ADC_SAMPLES
      invariant adcSum == SumOf(samples[..i])
    {
      assert samples[..i + 1][..i] == samples[..i];
      adcSum := adcSum + samples[i];
      i := i + 1;
    }
    assert samples[..ADC_SAMPLES] == samples;
    var adcAverage := adcSum as real / ADC_SAMPLES as real;
    var adcVoltage := (adcAverage / ADC_MAX) * ESP32_VREF;
    level := CalculateFuelLevel(adcVoltage);
  }

  /** Samples of one constant value sum to that value times their number. */
  lemma {:induction false} SumOfConstant(samples: seq<int>, x: int)
    requires forall i :: 0 <= i < |samples| ==> samples[i] == x
    ensures SumOf(samples) == |samples| * x
    decreases |samples|
  {
    if samples != [] {
      SumOfConstant(samples[..|samples| - 1], x);
    }
  }

  /**
   * The sensor reports the error value both when the ADC reads 0 throughout (a
   * shorted float) and when it saturates at full scale (an open float).
   */
  lemma AdcExtremesAreErrors(samples: seq<int>)
    requires |samples| == ADC_SAMPLES
    ensures (forall i :: 0 <= i < |samples| ==> samples[i] == 0) ==>
              CalculateFuelLevel(AdcVoltage(SumOf(samples))) == -1.0
    ensures (forall i :: 0 <= i < |samples| ==> samples[i] == 4095) ==>
              CalculateFuelLevel(AdcVoltage(SumOf(samples))) == -1.0
  {
    if forall i :: 0 <= i < |samples| ==> samples[i] == 0 {
      SumOfConstant(samples, 0);
    }
    if forall i :: 0 <= i < |samples| ==> samples[i] == 4095 {
      SumOfConstant(samples, 4095);
      assert AdcVoltage(SumOf(samples)) == ESP32_VREF;
    }
  }
}
