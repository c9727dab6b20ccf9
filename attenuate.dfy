// Attenuators of the calibrators.  CalSeqAttenuate and CalDiodeAttenuate
// carry the bodies of the two counts-to-kelvin converters, with one
// difference: the diode attenuator's debug line formats the whole
// temperature array and indexes nothing, so an empty pair attenuates to
// an empty array where the converter raises IndexError.

module Attenuation {
  import opened Wrappers
  import opened DcrTable
  import opened Decode
  import Converter

  /** The attenuator classes; the base class defines no attenuation. */
  datatype AttenuatorKind = BaseAttenuate | CalSeqAttenuate | CalDiodeAttenuate

  /** CalDiodeAttenuate.getTotalPower: the antenna-temperature formula on the cal-on and cal-off data. */
  function CalDiodeTotalPower(t: DcrTable): Result<seq<real>>
  {
    var on :- GetCalOnData(t);
    var off :- GetCalOffData(t);
    var tCal :- GetFactor(t);
    AntennaTemperature(on, off, tCal)
  }

  /** attenuate, which every attenuator defines as its getTotalPower. */
  function Attenuate(kind: AttenuatorKind, t: DcrTable): (r: Result<seq<real>>)
    ensures kind == BaseAttenuate ==> r == Err(NotImplemented)
  {
    match kind
    case BaseAttenuate => Err(NotImplemented)
    case CalSeqAttenuate => Converter.CalSeqTotalPower(t)
    case CalDiodeAttenuate => CalDiodeTotalPower(t)
  }

  /**
   * The diode attenuator succeeds only with exactly one cal-on row, exactly
   * one cal-off row and one shared FACTOR, and its result is the formula on
   * those rows' data, as long as they are; empty data give an empty result.
   */
  lemma CalDiodeTotalPowerMeaning(t: DcrTable)
    ensures CalDiodeTotalPower(t).Ok? ==>
      var on, off := Filter(t.rows, (x: DcrRow) => x.cal == 1), Filter(t.rows, (x: DcrRow) => x.cal == 0);
      |on| == 1 && |off| == 1 && GetFactor(t).Ok? &&
      CalDiodeTotalPower(t) == AntennaTemperature(on[0].data, off[0].data, GetFactor(t).value) &&
      |CalDiodeTotalPower(t).value| == |on[0].data|
    ensures var on, off := Filter(t.rows, (x: DcrRow) => x.cal == 1), Filter(t.rows, (x: DcrRow) => x.cal == 0);
      (|on| == 1 && |off| == 1 && GetFactor(t).Ok? && |on[0].data| == 0 && |off[0].data| == 0) ==>
      CalDiodeTotalPower(t) == Ok([])
    ensures |Filter(t.rows, (x: DcrRow) => x.cal == 1)| != 1 ==> CalDiodeTotalPower(t) == Err(ValueError(CalDataMsg()))
    ensures (|Filter(t.rows, (x: DcrRow) => x.cal == 1)| == 1 && |Filter(t.rows, (x: DcrRow) => x.cal == 0)| != 1) ==>
      CalDiodeTotalPower(t) == Err(ValueError(CalDataMsg()))
  {
  }

  /**
   * The attenuators and the converters compute the same thing except on
   * an empty temperature array: there the diode attenuator returns it and
   * the diode converter raises IndexError.
   */
  lemma AttenuatorsAgree(t: DcrTable)
    ensures Attenuate(CalSeqAttenuate, t) == Converter.ConvertCountsToKelvin(Converter.CalSeqConverter, t)
    ensures Converter.CalDiodeTotalPower(t).Ok? ==> CalDiodeTotalPower(t) == Converter.CalDiodeTotalPower(t)
    ensures CalDiodeTotalPower(t) != Converter.CalDiodeTotalPower(t) <==>
      CalDiodeTotalPower(t) == Ok([]) && Converter.CalDiodeTotalPower(t) == Err(IndexError)
  {
  }

  /**
   * A cal-on and a cal-off row with empty DATA and FACTOR 2: the diode
   * attenuator gives the empty array, the diode converter IndexError.
   */
  lemma EmptyPairAttenuates(t: DcrTable, on: DcrRow, off: DcrRow)
    requires t.hasFactor && t.rows == [on, off] && on.cal == 1 && off.cal == 0
    requires on.data == [] && off.data == [] && on.factor == 2.0 && off.factor == 2.0
    ensures Attenuate(CalDiodeAttenuate, t) == Ok([])
    ensures Converter.CalDiodeTotalPower(t) == Err(IndexError)
  {
    assert Filter(t.rows, (x: DcrRow) => x.cal == 1) == [on];
    assert Filter(t.rows, (x: DcrRow) => x.cal == 0) == [off];
    GetFactorMeaning(t);
  }
}
