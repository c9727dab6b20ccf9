// ArgusCalibration: the gains of the two Argus beams from a vane scan and a
// sky scan.  Twarm is the vane scan's TWARM header value, which is in
// degrees Celsius, converted to kelvin; Vwarm and Vcold are the medians of
// the first two DCR DATA columns of the vane and the sky scan.

module Argus {
  import opened Wrappers
  import opened RealSeq

  /** TEMP_OFFSET: kelvin at 0 degrees Celsius. */
  const TempOffset: real := 273.15

  /** What the two FITS files of a scan provide: the TWARM keyword and the DCR DATA rows. */
  datatype ArgusScan = ArgusScan(twarm: real, data: seq<seq<real>>)

  /** getTwarm: the header value in kelvin. */
  function Twarm(vane: ArgusScan): real
  {
    vane.twarm + TempOffset
  }

  /** data[:, c] */
  function Column(data: seq<seq<real>>, c: nat): (r: Result<seq<real>>)
    ensures r.Ok? ==> |r.value| == |data| && forall i :: 0 <= i < |data| ==> c < |data[i]| && r.value[i] == data[i][c]
    ensures r.Err? ==> r.error == IndexError && exists i :: 0 <= i < |data| && c >= |data[i]|
  {
    if exists i :: 0 <= i < |data| && c >= |data[i]| then Err(IndexError)
    else Ok(seq(|data|, i requires 0 <= i < |data| => data[i][c]))
  }

  /** numpy.median(data[:, c]); the median of no samples is nan. */
  function ColumnMedian(data: seq<seq<real>>, c: nat): Result<real>
  {
    var col :- Column(data, c);
    if |col| == 0 then Err(NonFinite) else Ok(Median(col))
  }

  /** getVwarm / getVcold: the medians of the first two columns. */
  function Medians(scan: ArgusScan): Result<(real, real)>
  {
    var m0 :- ColumnMedian(scan.data, 0);
    var m1 :- ColumnMedian(scan.data, 1);
    Ok((m0, m1))
  }

  /**
   * getGain: Twarm / (Vwarm - Vcold) for each beam, keyed "10X" and "11X".
   * Equal medians divide by zero, which numpy turns into inf.
   */
  function GetGain(vane: ArgusScan, sky: ArgusScan): Result<map<string, real>>
  {
    var twarm := Twarm(vane);
    var vwarm :- Medians(vane);
    var vcold :- Medians(sky);
    if vwarm.0 - vcold.0 == 0.0 || vwarm.1 - vcold.1 == 0.0 then Err(NonFinite)
    else Ok(map["10X" := twarm / (vwarm.0 - vcold.0), "11X" := twarm / (vwarm.1 - vcold.1)])
  }

  /** Dividing by a nonzero difference and multiplying back gives the dividend. */
  lemma DivideBack(a: real, d: real)
    requires d != 0.0
    ensures (a / d) * d == a
  {
  }

  /**
   * A gain map has exactly the keys "10X" and "11X", and each gain turns the
   * beam's warm-minus-cold counts back into Twarm.
   */
  lemma GetGainMeaning(vane: ArgusScan, sky: ArgusScan)
    ensures GetGain(vane, sky).Ok? ==>
      var g := GetGain(vane, sky).value;
      var vwarm, vcold := Medians(vane).value, Medians(sky).value;
      Medians(vane).Ok? && Medians(sky).Ok? &&
      g.Keys == {"10X", "11X"} &&
      g["10X"] * (vwarm.0 - vcold.0) == Twarm(vane) &&
      g["11X"] * (vwarm.1 - vcold.1) == Twarm(vane)
  {
    if GetGain(vane, sky).Ok? {
      var vwarm, vcold := Medians(vane).value, Medians(sky).value;
      var d0, d1 := vwarm.0 - vcold.0, vwarm.1 - vcold.1;
      assert GetGain(vane, sky).value == map["10X" := Twarm(vane) / d0, "11X" := Twarm(vane) / d1];
      DivideBack(Twarm(vane), d0);
      DivideBack(Twarm(vane), d1);
    }
  }

  /** With both scans readable, the gains fail only when a beam's warm and cold medians coincide. */
  lemma GetGainDefined(vane: ArgusScan, sky: ArgusScan)
    requires Medians(vane).Ok? && Medians(sky).Ok?
    ensures GetGain(vane, sky).Ok? <==>
      Medians(vane).value.0 != Medians(sky).value.0 && Medians(vane).value.1 != Medians(sky).value.1
    ensures GetGain(vane, sky).Err? ==> GetGain(vane, sky).error == NonFinite
  {
  }

  /** Twarm is the vane's Celsius reading shifted to kelvin: 0 degrees Celsius is 273.15 K. */
  lemma TwarmKelvin(vane: ArgusScan)
    ensures Twarm(vane) - vane.twarm == 273.15
    ensures vane.twarm == 0.0 ==> Twarm(vane) == 273.15
  {
  }

  /** The medians fail exactly when a DATA row has fewer than two columns, or there are no rows. */
  lemma MediansMeaning(scan: ArgusScan)
    ensures Medians(scan).Ok? <==> |scan.data| > 0 && forall i :: 0 <= i < |scan.data| ==> |scan.data[i]| >= 2
    ensures Medians(scan).Ok? ==> Medians(scan).value == (Median(Column(scan.data, 0).value), Median(Column(scan.data, 1).value))
  {
    if |scan.data| > 0 && forall i :: 0 <= i < |scan.data| ==> |scan.data[i]| >= 2 {
      assert Column(scan.data, 0).Ok? && Column(scan.data, 1).Ok?;
    }
  }
}
