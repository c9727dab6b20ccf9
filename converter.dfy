// Counts-to-kelvin converters.  A CalSeqConverter takes the one cal-off row
// of a feed and polarization and scales its deviation from the median by
// the gain stored in FACTOR; a CalDiodeConverter compares the cal-on and
// cal-off rows using the diode temperature stored in FACTOR.  The
// attenuators of the calibrators (module Attenuation) copy these bodies,
// except for the diode converter's debug line.

module Converter {
  import opened Wrappers
  import opened RealSeq
  import opened DcrTable
  import opened Decode

  /** The converter classes; the base class defines no conversion. */
  datatype ConverterKind = BaseConverter | CalSeqConverter | CalDiodeConverter

  /** gain × (off − median(off)), elementwise; numpy gives [] for an empty series. */
  function Centred(gain: real, off: seq<real>): (r: seq<real>)
    ensures |r| == |off|
  {
    if |off| == 0 then [] else Map(off, x => gain * (x - Median(off)))
  }

  /** CalSeqConverter.getTotalPower: exactly one (cal-off) row is required. */
  function CalSeqTotalPower(t: DcrTable): Result<seq<real>>
  {
    if |t.rows| != 1 then Err(ValueError("one 'off' row"))
    else Ok(Centred(t.rows[0].factor, t.rows[0].data))
  }

  /**
   * The conversion succeeds exactly for a one-row table; each output sample
   * is the gain times the sample's distance from the median, and the output
   * is as long as the input.
   */
  lemma CalSeqTotalPowerMeaning(t: DcrTable)
    ensures CalSeqTotalPower(t).Ok? <==> |t.rows| == 1
    ensures CalSeqTotalPower(t).Err? ==> CalSeqTotalPower(t).error.ValueError?
    ensures CalSeqTotalPower(t).Ok? ==>
      var off, r := t.rows[0].data, CalSeqTotalPower(t).value;
      |r| == |off| && forall j :: 0 <= j < |r| ==> r[j] == t.rows[0].factor * (off[j] - Median(off))
  {
    if |t.rows| == 1 {
      var off := t.rows[0].data;
      var g := t.rows[0].factor;
      forall j | 0 <= j < |off| ensures Centred(g, off)[j] == g * (off[j] - Median(off)) {
        MapAt(off, x => g * (x - Median(off)), j);
      }
    }
  }

  /** The conversion is linear in the gain: gain g gives g times the gain-1 result. */
  lemma CalSeqLinear(row: DcrRow, t: DcrTable, g: real)
    ensures var r, r1 := CalSeqTotalPower(t.(rows := [row.(factor := g)])), CalSeqTotalPower(t.(rows := [row.(factor := 1.0)]));
      r.Ok? && r1.Ok? && |r.value| == |r1.value| && forall j :: 0 <= j < |r.value| ==> r.value[j] == g * r1.value[j]
  {
    CalSeqTotalPowerMeaning(t.(rows := [row.(factor := g)]));
    CalSeqTotalPowerMeaning(t.(rows := [row.(factor := 1.0)]));
  }

  /** A constant cal-off series converts to all zeros. */
  lemma CalSeqConstant(t: DcrTable, c: real)
    requires |t.rows| == 1 && IsConstant(t.rows[0].data, c)
    ensures CalSeqTotalPower(t) == Ok(Constant(|t.rows[0].data|, 0.0))
  {
    var off := t.rows[0].data;
    CalSeqTotalPowerMeaning(t);
    if |off| > 0 {
      MedianOfConstant(off, c);
      var r := CalSeqTotalPower(t).value;
      forall j | 0 <= j < |r| ensures r[j] == 0.0 {
        assert off[j] == c;
      }
      assert r == Constant(|off|, 0.0);
    }
  }

  /** With a positive gain the converted series has median zero: the median is what is taken away. */
  lemma CalSeqMedianZero(t: DcrTable)
    requires |t.rows| == 1 && |t.rows[0].data| > 0 && t.rows[0].factor > 0.0
    ensures CalSeqTotalPower(t).Ok? && Median(CalSeqTotalPower(t).value) == 0.0
  {
    var off := t.rows[0].data;
    var g := t.rows[0].factor;
    var m := Median(off);
    var f := x => g * (x - m);
    AffineIsIncreasing(g, -g * m, f);
    MedianMap(off, f);
  }

  /**
   * CalDiodeConverter.getTotalPower: the cal-on data, the cal-off data and
   * the table's single FACTOR (the diode temperature) through the
   * antenna-temperature formula; the first failing lookup is the error.  The
   * debug line after the formula reads the first and last temperature, so
   * empty DATA raises IndexError.
   */
  function CalDiodeTotalPower(t: DcrTable): Result<seq<real>>
  {
    var on :- GetCalOnData(t);
    var off :- GetCalOffData(t);
    var tCal :- GetFactor(t);
    var ta :- AntennaTemperature(on, off, tCal);
    if |ta| == 0 then Err(IndexError) else Ok(ta)
  }

  /**
   * The conversion succeeds only with exactly one cal-on row, exactly one
   * cal-off row and one shared FACTOR, and non-empty DATA; the result is then
   * the formula applied to those two rows' data, as long as they are.
   */
  lemma CalDiodeTotalPowerMeaning(t: DcrTable)
    ensures CalDiodeTotalPower(t).Ok? ==>
      var on, off := Filter(t.rows, (x: DcrRow) => x.cal == 1), Filter(t.rows, (x: DcrRow) => x.cal == 0);
      |on| == 1 && |off| == 1 && GetFactor(t).Ok? &&
      CalDiodeTotalPower(t) == AntennaTemperature(on[0].data, off[0].data, GetFactor(t).value) &&
      |CalDiodeTotalPower(t).value| == |on[0].data| > 0
    ensures var on, off := Filter(t.rows, (x: DcrRow) => x.cal == 1), Filter(t.rows, (x: DcrRow) => x.cal == 0);
      (|on| == 1 && |off| == 1 && GetFactor(t).Ok? && |on[0].data| == 0 && |off[0].data| == 0) ==>
      CalDiodeTotalPower(t) == Err(IndexError)
    ensures |Filter(t.rows, (x: DcrRow) => x.cal == 1)| != 1 ==> CalDiodeTotalPower(t) == Err(ValueError(CalDataMsg()))
    ensures (|Filter(t.rows, (x: DcrRow) => x.cal == 1)| == 1 && |Filter(t.rows, (x: DcrRow) => x.cal == 0)| != 1) ==>
      CalDiodeTotalPower(t) == Err(ValueError(CalDataMsg()))
  {
  }

  /**
   * A feed whose cal-off counts are a gain times the sky temperature, and
   * whose cal-on counts add the gain times the FACTOR, converts back to the
   * sky temperature.
   */
  lemma CalDiodeRecovers(t: DcrTable, on: DcrRow, off: DcrRow, temps: seq<real>, g: real)
    requires t.hasFactor && t.rows == [on, off] && on.cal == 1 && off.cal == 0
    requires on.factor == off.factor && on.factor != 0.0 && g != 0.0 && |temps| > 0
    requires |off.data| == |temps| && forall j :: 0 <= j < |temps| ==> off.data[j] == g * temps[j]
    requires |on.data| == |temps| && forall j :: 0 <= j < |temps| ==> on.data[j] == off.data[j] + g * on.factor
    ensures CalDiodeTotalPower(t) == Ok(temps)
  {
    assert Filter(t.rows, (x: DcrRow) => x.cal == 1) == [on];
    assert Filter(t.rows, (x: DcrRow) => x.cal == 0) == [off];
    GetFactorMeaning(t);
    AntennaTemperatureRecovers(temps, g, on.factor, on.data, off.data);
  }

  /** convertCountsToKelvin, which every converter defines as its getTotalPower. */
  function ConvertCountsToKelvin(kind: ConverterKind, t: DcrTable): (r: Result<seq<real>>)
    ensures kind == BaseConverter ==> r == Err(NotImplemented)
  {
    match kind
    case BaseConverter => Err(NotImplemented)
    case CalSeqConverter => CalSeqTotalPower(t)
    case CalDiodeConverter => CalDiodeTotalPower(t)
  }
}
