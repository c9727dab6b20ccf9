// The entry point of the pipeline, gbtcal/calibrate.py: doCalibrate looks
// the scan's receiver up in the receiver table, checks the requested modes
// against the receiver's options, turns the polarization mode into the
// polarization the calibrator selects, derives the three stage switches
// from the modes, picks the calibrator class and runs it.  The receiver
// table is given as already loaded rows.

module Calibrate {
  import opened Wrappers
  import opened Ordering
  import opened DcrTable
  import opened Calibrators
  import opened Pipeline

  /** One row of the receiver table: M&C Name, Cal Options, Pol Options and Cal Strategy. */
  datatype ReceiverRow = ReceiverRow(name: string, calOptions: seq<string>, polOptions: seq<string>, calStrategy: string)

  // The option values of CALOPTS and POLOPTS, and the polarizations of POLS.
  function Raw(): string { "Raw" }
  function DualBeam(): string { "DualBeam" }
  function BeamSwitchedTBOnly(): string { "BeamSwitchedTBOnly" }

  /** getReceiverInfo: the rows whose M&C Name is the receiver, in table order. */
  function ReceiverInfo(table: seq<ReceiverRow>, receiver: string): (r: seq<ReceiverRow>)
    ensures |r| <= |table|
    ensures forall x :: x in r <==> x in table && x.name == receiver
  {
    if |table| == 0 then []
    else
      var rest := ReceiverInfo(table[1..], receiver);
      assert forall x :: x in table <==> x == table[0] || x in table[1..];
      if table[0].name == receiver then [table[0]] + rest else rest
  }

  function CalModeMsg(): string { "invalid calMode" }
  function PolModeMsg(): string { "invalid polMode" }

  /**
   * validateOptions: the first row's options must contain both modes.  The
   * first row is read before anything is checked, so an empty selection
   * raises IndexError.
   */
  function ValidateOptions(rcvrRows: seq<ReceiverRow>, calMode: string, polMode: string): (r: Option<Error>)
    ensures r == None <==> |rcvrRows| > 0 && calMode in rcvrRows[0].calOptions && polMode in rcvrRows[0].polOptions
    ensures |rcvrRows| == 0 ==> r == Some(IndexError)
    ensures |rcvrRows| > 0 && calMode !in rcvrRows[0].calOptions ==> r == Some(ValueError(CalModeMsg()))
    ensures |rcvrRows| > 0 && calMode in rcvrRows[0].calOptions && polMode !in rcvrRows[0].polOptions ==>
      r == Some(ValueError(PolModeMsg()))
  {
    if |rcvrRows| == 0 then Some(IndexError)
    else if calMode !in rcvrRows[0].calOptions then Some(ValueError(CalModeMsg()))
    else if polMode !in rcvrRows[0].polOptions then Some(ValueError(PolModeMsg()))
    else None
  }

  function PolModeUnknownMsg(): string { "Invalid polMode" }

  /**
   * The polarization the calibrator is asked for: Avg is passed on; XL and
   * YR become their first letter when the data are linear (X or Y present)
   * and their second when they are circular (L or R present).
   */
  function PolOption(polMode: string, pols: seq<string>): (r: Result<string>)
    ensures polMode == Avg() ==> r == Ok(Avg())
  {
    if polMode == Avg() then Ok(polMode)
    else if "X" in pols || "Y" in pols then
      if |polMode| > 0 then Ok([polMode[0]]) else Err(IndexError)
    else if "L" in pols || "R" in pols then
      if |polMode| > 1 then Ok([polMode[1]]) else Err(IndexError)
    else Err(ValueError(PolModeUnknownMsg()))
  }

  /**
   * For the two-letter polarization modes, the option is the letter of the
   * mode that names the data's kind of polarization: X for XL and Y for YR
   * on linear data, L for XL and R for YR on circular data; data with
   * neither kind fail.
   */
  lemma PolOptionMeaning(polMode: string, pols: seq<string>)
    requires polMode == "XL" || polMode == "YR"
    ensures var linear, circular := "X" in pols || "Y" in pols, "L" in pols || "R" in pols;
      PolOption(polMode, pols) ==
        if linear then Ok(if polMode == "XL" then "X" else "Y")
        else if circular then Ok(if polMode == "XL" then "L" else "R")
        else Err(ValueError(PolModeUnknownMsg()))
  {
    assert polMode != Avg();
  }

  /** The option chosen for XL or YR is always one of POLS's four polarizations. */
  lemma PolOptionIsPolarization(polMode: string, pols: seq<string>)
    requires polMode == "XL" || polMode == "YR"
    requires PolOption(polMode, pols).Ok?
    ensures PolOption(polMode, pols).value in ["X", "Y", "L", "R"]
  {
    PolOptionMeaning(polMode, pols);
  }

  /** The stage switches: conversion unless Raw, inter-pol for Avg, inter-beam for the two dual-beam modes. */
  function StageFlags(calMode: string, polMode: string): (r: Flags)
    ensures r.attenuation <==> calMode != Raw()
    ensures r.interPol <==> polMode == Avg()
    ensures r.interBeam <==> calMode == DualBeam() || calMode == BeamSwitchedTBOnly()
  {
    Flags(calMode != Raw(), polMode == Avg(), calMode in [DualBeam(), BeamSwitchedTBOnly()])
  }

  /** Both dual-beam modes convert first; Raw runs no stage operation but the pol average. */
  lemma StageFlagsConsistent(calMode: string, polMode: string)
    ensures StageFlags(calMode, polMode).interBeam ==> StageFlags(calMode, polMode).attenuation
    ensures calMode == Raw() ==> StageFlags(calMode, polMode) == Flags(false, polMode == Avg(), false)
  {
  }

  /** getattr(gbtcal.calibrator, name) for the calibrator classes the module defines. */
  function ClassNamed(name: string): (r: Option<CalibratorClass>)
  {
    if name == "Calibrator" then Some(CalibratorBase)
    else if name == "TraditionalCalibrator" then Some(TraditionalCalibrator)
    else if name == "KaCalibrator" then Some(KaCalibrator)
    else if name == "CalSeqCalibrator" then Some(CalSeqCalibrator)
    else if name == "WBandCalibrator" then Some(WBandCalibrator)
    else if name == "ArgusCalibrator" then Some(ArgusCalibrator)
    else None
  }

  /** The Python name of each class. */
  function NameOf(c: CalibratorClass): string
  {
    match c
    case CalibratorBase => "Calibrator"
    case TraditionalCalibrator => "TraditionalCalibrator"
    case KaCalibrator => "KaCalibrator"
    case CalSeqCalibrator => "CalSeqCalibrator"
    case WBandCalibrator => "WBandCalibrator"
    case ArgusCalibrator => "ArgusCalibrator"
  }

  /** The lookup by name finds every class under its own name, and only there. */
  lemma ClassNamedMeaning(name: string, c: CalibratorClass)
    ensures ClassNamed(NameOf(c)) == Some(c)
    ensures ClassNamed(name) == Some(c) <==> name == NameOf(c)
  {
  }

  function MissingReceiverMsg(): string { "unknown receiver" }
  function UnknownStrategyMsg(): string { "unknown strategy" }

  /**
   * The calibrator class: an explicit one wins; otherwise the first row's
   * Cal Strategy names it.  No row, or a name that is not a calibrator
   * class, raises ValueError.
   */
  function Strategy(calibrator: Option<CalibratorClass>, rcvrRows: seq<ReceiverRow>): (r: Result<CalibratorClass>)
    ensures calibrator.Some? ==> r == Ok(calibrator.value)
    ensures calibrator.None? && |rcvrRows| == 0 ==> r == Err(ValueError(MissingReceiverMsg()))
    ensures calibrator.None? && |rcvrRows| > 0 ==>
      (r.Ok? <==> ClassNamed(rcvrRows[0].calStrategy).Some?) &&
      (r.Ok? ==> NameOf(r.value) == rcvrRows[0].calStrategy) &&
      (r.Err? ==> r.error == ValueError(UnknownStrategyMsg()))
  {
    if calibrator.Some? then Ok(calibrator.value)
    else if |rcvrRows| == 0 then Err(ValueError(MissingReceiverMsg()))
    else match ClassNamed(rcvrRows[0].calStrategy)
      case Some(c) => Ok(c)
      case None => Err(ValueError(UnknownStrategyMsg()))
  }

  /** The distinct POLARIZE values, as numpy.unique lists them. */
  function TablePols(t: DcrTable): seq<string>
  {
    SortedUnique(Polarizations(t.rows), StrLess)
  }

  /**
   * doCalibrate, up to the calibrator's construction: the class, the stage
   * switches and the polarization it is asked for.
   */
  function Plan(rcvrTable: seq<ReceiverRow>, t: DcrTable, calMode: string, polMode: string,
                calibrator: Option<CalibratorClass>): Result<(CalibratorClass, Flags, string)>
  {
    var rcvrRows := ReceiverInfo(rcvrTable, t.receiver);
    match ValidateOptions(rcvrRows, calMode, polMode)
    case Some(e) => Err(e)
    case None =>
      var polOption :- PolOption(polMode, TablePols(t));
      var c :- Strategy(calibrator, rcvrRows);
      Ok((c, StageFlags(calMode, polMode), polOption))
  }

  /**
   * doCalibrate: the plan, then describe() and calibrate on the
   * calibrator's copy of the table.  A table that already has a FACTOR
   * column cannot take the constructor's new one.
   */
  function DoCalibrate(rcvrTable: seq<ReceiverRow>, t: DcrTable, calMode: string, polMode: string,
                       calibrator: Option<CalibratorClass>, inputs: Inputs, scanNum: int): Result<seq<real>>
  {
    var (c, flags, polOption) :- Plan(rcvrTable, t, calMode, polMode, calibrator);
    if t.hasFactor then Err(ValueError(DuplicateColumnMsg()))
    else if Describe(c).Some? then Err(Describe(c).value)
    else CalibrateSpec(c, WithUnitFactors(t), flags, inputs, scanNum, polOption).1
  }

  /**
   * describe(): it reads attenuator, interPolCalibrator and
   * interBeamCalibrator, which only the subclasses define as class
   * attributes (the base class's properties are local to its __init__).
   */
  function Describe(c: CalibratorClass): Option<Error>
  {
    if c == CalibratorBase then Some(AttributeError) else None
  }

  /**
   * The base Calibrator never reaches calibrate, even in a mode that asks
   * for no stage: once its plan succeeds on a table without FACTOR,
   * describe() raises AttributeError.  Every other class goes on to
   * calibrate.
   */
  lemma DescribeBase(rcvrTable: seq<ReceiverRow>, t: DcrTable, calMode: string, polMode: string,
                     calibrator: Option<CalibratorClass>, inputs: Inputs, scanNum: int)
    ensures var p := Plan(rcvrTable, t, calMode, polMode, calibrator);
      p.Ok? && !t.hasFactor && p.value.0 == CalibratorBase ==>
        DoCalibrate(rcvrTable, t, calMode, polMode, calibrator, inputs, scanNum) == Err(AttributeError)
    ensures var p := Plan(rcvrTable, t, calMode, polMode, calibrator);
      p.Ok? && !t.hasFactor && p.value.0 != CalibratorBase ==>
        DoCalibrate(rcvrTable, t, calMode, polMode, calibrator, inputs, scanNum) ==
        CalibrateSpec(p.value.0, WithUnitFactors(t), p.value.1, inputs, scanNum, p.value.2).1
  {
  }

  function DuplicateColumnMsg(): string { "Duplicate column names" }

  /**
   * The plan succeeds exactly when the receiver is listed, both modes are
   * among its options, the polarization option exists and a class is found;
   * it then carries the stage switches of the modes.
   */
  lemma PlanMeaning(rcvrTable: seq<ReceiverRow>, t: DcrTable, calMode: string, polMode: string,
                    calibrator: Option<CalibratorClass>)
    ensures var rows := ReceiverInfo(rcvrTable, t.receiver);
      Plan(rcvrTable, t, calMode, polMode, calibrator).Ok? <==>
        ValidateOptions(rows, calMode, polMode) == None &&
        PolOption(polMode, TablePols(t)).Ok? && Strategy(calibrator, rows).Ok?
    ensures var rows := ReceiverInfo(rcvrTable, t.receiver);
      var p := Plan(rcvrTable, t, calMode, polMode, calibrator);
      p.Ok? ==>
        p.value == (Strategy(calibrator, rows).value, StageFlags(calMode, polMode), PolOption(polMode, TablePols(t)).value) &&
        (calibrator.Some? ==> p.value.0 == calibrator.value) &&
        (calibrator.None? ==> exists x :: x in rcvrTable && x.name == t.receiver && NameOf(p.value.0) == x.calStrategy)
  {
    var rows := ReceiverInfo(rcvrTable, t.receiver);
    if Plan(rcvrTable, t, calMode, polMode, calibrator).Ok? && calibrator.None? {
      assert rows[0] in rows;
    }
  }

  /**
   * A receiver missing from the table fails with IndexError inside
   * validateOptions, so doCalibrate's ValueError for a missing receiver is
   * never raised.
   */
  lemma UnknownReceiverIndexError(rcvrTable: seq<ReceiverRow>, t: DcrTable, calMode: string, polMode: string,
                                  calibrator: Option<CalibratorClass>, inputs: Inputs, scanNum: int)
    requires forall x :: x in rcvrTable ==> x.name != t.receiver
    ensures DoCalibrate(rcvrTable, t, calMode, polMode, calibrator, inputs, scanNum) == Err(IndexError)
  {
  }

  /**
   * validateOptions as evidently intended: a missing receiver is reported
   * as such before the options are read.
   */
  function CheckedOptions(rcvrRows: seq<ReceiverRow>, calMode: string, polMode: string): (r: Option<Error>)
    ensures |rcvrRows| > 0 ==> r == ValidateOptions(rcvrRows, calMode, polMode)
  {
    if |rcvrRows| == 0 then Some(ValueError(MissingReceiverMsg())) else ValidateOptions(rcvrRows, calMode, polMode)
  }

  /** doCalibrate with the intended receiver check. */
  function DoCalibrateChecked(rcvrTable: seq<ReceiverRow>, t: DcrTable, calMode: string, polMode: string,
                              calibrator: Option<CalibratorClass>, inputs: Inputs, scanNum: int): (r: Result<seq<real>>)
  {
    var rcvrRows := ReceiverInfo(rcvrTable, t.receiver);
    match CheckedOptions(rcvrRows, calMode, polMode)
    case Some(e) => Err(e)
    case None => DoCalibrate(rcvrTable, t, calMode, polMode, calibrator, inputs, scanNum)
  }

  /**
   * With the intended check, a missing receiver gives its ValueError, and a
   * listed receiver gives exactly what doCalibrate gives.
   */
  lemma DoCalibrateCheckedMeaning(rcvrTable: seq<ReceiverRow>, t: DcrTable, calMode: string, polMode: string,
                                  calibrator: Option<CalibratorClass>, inputs: Inputs, scanNum: int)
    ensures (forall x :: x in rcvrTable ==> x.name != t.receiver) ==>
      DoCalibrateChecked(rcvrTable, t, calMode, polMode, calibrator, inputs, scanNum) == Err(ValueError(MissingReceiverMsg()))
    ensures (exists x :: x in rcvrTable && x.name == t.receiver) ==>
      DoCalibrateChecked(rcvrTable, t, calMode, polMode, calibrator, inputs, scanNum) ==
      DoCalibrate(rcvrTable, t, calMode, polMode, calibrator, inputs, scanNum)
  {
    var rows := ReceiverInfo(rcvrTable, t.receiver);
    if |rows| > 0 {
      assert rows[0] in rows;
    } else {
      assert forall x :: x in rcvrTable ==> x.name != t.receiver;
    }
  }

  /** doCalibrate as a run of the calibrator object. */
  method RunCalibrator(rcvrTable: seq<ReceiverRow>, t: DcrTable, calMode: string, polMode: string,
                       calibrator: Option<CalibratorClass>, inputs: Inputs, scanNum: int)
    returns (r: Result<seq<real>>)
    ensures r == DoCalibrate(rcvrTable, t, calMode, polMode, calibrator, inputs, scanNum)
  {
    var plan := Plan(rcvrTable, t, calMode, polMode, calibrator);
    if plan.Err? {
      return Err(plan.error);
    }
    var (c, flags, polOption) := plan.value;
    if t.hasFactor {
      return Err(ValueError(DuplicateColumnMsg()));
    }
    var cal := new Calibrator(c, t, scanNum, flags, inputs);
    if c == CalibratorBase {
      return Err(AttributeError);
    }
    r := cal.Calibrate(polOption);
  }
}
