// The option classes of the calibration pipeline.  Each option class holds
// its options as class attributes; Constant.all lists the names dir() reports
// for the non-callable attributes that are not dunder names, and isValid /
// areValid test membership in that list.  POLS overrides all() with the
// values of its LINEAR and CIRCULAR tuples.

module Constants {
  import opened Wrappers
  import opened Ordering

  datatype AttrValue = StrValue(s: string) | TupleValue(items: seq<string>) | Callable | OtherValue

  datatype Attr = Attr(name: string, value: AttrValue)

  /** The option classes of constants.py. */
  datatype OptionClass = POLOPTS | CALOPTS | ATTENTYPES | POLS

  /** What every subclass of Constant inherits: the three classmethods and the object dunders. */
  function Inherited(): seq<Attr>
  {
    [ Attr("all", Callable), Attr("areValid", Callable), Attr("isValid", Callable),
      Attr("__dict__", OtherValue), Attr("__doc__", OtherValue),
      Attr("__module__", OtherValue), Attr("__weakref__", OtherValue) ]
  }

  /** Each class's own attributes, as declared. */
  function Own(c: OptionClass): seq<Attr>
  {
    match c
    case POLOPTS =>
      [Attr("XL", StrValue("XL")), Attr("YR", StrValue("YR")), Attr("AVG", StrValue("Avg"))]
    case CALOPTS =>
      [ Attr("RAW", StrValue("Raw")), Attr("TOTALPOWER", StrValue("TotalPower")),
        Attr("DUALBEAM", StrValue("DualBeam")), Attr("BEAMSWITCH", StrValue("BeamSwitch")),
        Attr("BEAMSWITCHEDTBONLY", StrValue("BeamSwitchedTBOnly")) ]
    case ATTENTYPES =>
      [Attr("GFM", StrValue("GFM")), Attr("OOF", StrValue("OOF"))]
    case POLS =>
      [ Attr("X", StrValue("X")), Attr("Y", StrValue("Y")), Attr("L", StrValue("L")),
        Attr("R", StrValue("R")), Attr("LINEAR", TupleValue(["X", "Y"])),
        Attr("CIRCULAR", TupleValue(["L", "R"])) ]
  }

  /** Class attributes in lookup order: the class's own first, then the inherited ones. */
  function Attrs(c: OptionClass): seq<Attr>
  {
    Own(c) + Inherited()
  }

  /** name.startswith("__") */
  predicate IsDunder(name: string)
  {
    |name| >= 2 && name[0] == '_' && name[1] == '_'
  }

  /** Constant.all's filter: a non-callable attribute whose name is not a dunder name. */
  predicate IsData(a: Attr)
  {
    a.value != Callable && !IsDunder(a.name)
  }

  /** The names of the data attributes, in declaration order. */
  function DataNames(attrs: seq<Attr>): (r: seq<string>)
    ensures forall y :: y in r <==> exists k :: 0 <= k < |attrs| && attrs[k].name == y && IsData(attrs[k])
  {
    if |attrs| == 0 then []
    else
      var rest := DataNames(attrs[1..]);
      assert forall k :: 1 <= k < |attrs| ==> attrs[k] == attrs[1..][k - 1];
      if IsData(attrs[0]) then [attrs[0].name] + rest else rest
  }

  lemma {:induction false} DataNamesAppend(a: seq<Attr>, b: seq<Attr>)
    ensures DataNames(a + b) == DataNames(a) + DataNames(b)
  {
    if |a| > 0 {
      assert (a + b)[1..] == a[1..] + b;
      DataNamesAppend(a[1..], b);
    } else {
      assert a + b == b;
    }
  }

  lemma InheritedHasNoData()
    ensures DataNames(Inherited()) == []
  {
    var h := Inherited();
    assert forall k :: 0 <= k < 3 ==> h[k].value == Callable;
    assert forall k :: 3 <= k < |h| ==> h[k].name[0] == '_' && h[k].name[1] == '_';
    NoDataNames(h);
  }

  /** Attributes none of which is data contribute no names. */
  lemma {:induction false} NoDataNames(attrs: seq<Attr>)
    requires forall k :: 0 <= k < |attrs| ==> !IsData(attrs[k])
    ensures DataNames(attrs) == []
  {
    if |attrs| > 0 {
      assert forall k :: 0 <= k < |attrs[1..]| ==> attrs[1..][k] == attrs[k + 1];
      NoDataNames(attrs[1..]);
    }
  }

  /**
   * Constant.all as written: dir() gives the attribute names sorted, and the
   * data attributes among them are kept, so the result lists NAMES.
   */
  function All(attrs: seq<Attr>): seq<string>
  {
    SortedUnique(DataNames(attrs), StrLess)
  }

  /** cls.all(), with the POLS override. */
  function AllOf(c: OptionClass): seq<string>
  {
    if c == POLS then ["X", "Y"] + ["L", "R"] else All(Attrs(c))
  }

  predicate IsValid(c: OptionClass, value: string)
  {
    value in AllOf(c)
  }

  /** Python's all() over [cls.isValid(v) for v in values]. */
  function AreValid(c: OptionClass, values: seq<string>): bool
  {
    if |values| == 0 then true else IsValid(c, values[0]) && AreValid(c, values[1..])
  }

  /** areValid holds of exactly the lists whose every element is valid; of [] in particular. */
  lemma {:induction false} AreValidMeansAll(c: OptionClass, values: seq<string>)
    ensures AreValid(c, values) <==> forall k :: 0 <= k < |values| ==> IsValid(c, values[k])
  {
    if |values| > 0 {
      AreValidMeansAll(c, values[1..]);
      assert forall k :: 1 <= k < |values| ==> values[k] == values[1..][k - 1];
    }
  }

  /** all() is sorted, and lists a name exactly when some non-callable, non-dunder attribute has it. */
  lemma AllCharacterised(attrs: seq<Attr>)
    ensures StrictlySorted(All(attrs), StrLess)
    ensures forall y :: y in All(attrs) <==> y in DataNames(attrs)
  {
    StrLessIsStrictTotal();
    SortedUniqueProperties(DataNames(attrs), StrLess);
  }

  lemma OwnData(c: OptionClass)
    ensures DataNames(Attrs(c)) == DataNames(Own(c))
  {
    DataNamesAppend(Own(c), Inherited());
    InheritedHasNoData();
  }

  /** The names POLOPTS.all() lists. */
  lemma PolOptsAll()
    ensures AllOf(POLOPTS) == ["AVG", "XL", "YR"]
  {
    var attrs := Attrs(POLOPTS);
    PolOptsDataNames();
    AllCharacterised(attrs);
    PolOptsNamesSorted();
    StrLessIsStrictTotal();
    StrictlySortedDetermined(All(attrs), PolOptsNames(), StrLess);
  }

  lemma PolOptsDataNames()
    ensures DataNames(Attrs(POLOPTS)) == ["XL", "YR", "AVG"]
  {
    OwnData(POLOPTS);
    var own := Own(POLOPTS);
    assert own == [Attr("XL", StrValue("XL")), Attr("YR", StrValue("YR")), Attr("AVG", StrValue("Avg"))];
    assert IsData(own[0]) && IsData(own[1]) && IsData(own[2]);
  }

  function PolOptsNames(): seq<string>
  {
    ["AVG", "XL", "YR"]
  }

  lemma PolOptsNamesSorted()
    ensures StrictlySorted(PolOptsNames(), StrLess)
  {
    var names := PolOptsNames();
    FirstCharLess(names[0], names[1]);
    FirstCharLess(names[1], names[2]);
    StrLessIsStrictTotal();
    ChainStrictlySorted(names, StrLess);
  }

  lemma CalOptsDataNames()
    ensures DataNames(Attrs(CALOPTS)) == ["RAW", "TOTALPOWER", "DUALBEAM", "BEAMSWITCH", "BEAMSWITCHEDTBONLY"]
  {
    OwnData(CALOPTS);
    CalOptsOwnNames();
  }

  lemma CalOptsOwnNames()
    ensures DataNames(Own(CALOPTS)) == ["RAW", "TOTALPOWER", "DUALBEAM", "BEAMSWITCH", "BEAMSWITCHEDTBONLY"]
  {
    var own := Own(CALOPTS);
    assert forall k :: 0 <= k < |own| ==> own[k].value.StrValue? && own[k].name[0] != '_';
    AllDataNames(own);
  }

  /** Attributes that are all data contribute their names, in order. */
  lemma {:induction false} AllDataNames(attrs: seq<Attr>)
    requires forall k :: 0 <= k < |attrs| ==> IsData(attrs[k])
    ensures |DataNames(attrs)| == |attrs| && forall k :: 0 <= k < |attrs| ==> DataNames(attrs)[k] == attrs[k].name
  {
    if |attrs| > 0 {
      assert forall k :: 0 <= k < |attrs[1..]| ==> attrs[1..][k] == attrs[k + 1];
      AllDataNames(attrs[1..]);
    }
  }

  function CalOptsNames(): seq<string>
  {
    ["BEAMSWITCH", "BEAMSWITCHEDTBONLY", "DUALBEAM", "RAW", "TOTALPOWER"]
  }

  lemma CalOptsNeighbours()
    ensures forall k :: 0 <= k < |CalOptsNames()| - 1 ==> StrLess(CalOptsNames()[k], CalOptsNames()[k + 1])
  {
    var names := CalOptsNames();
    BeamSwitchBeforeTbOnly();
    FirstCharLess(names[1], names[2]);
    FirstCharLess(names[2], names[3]);
    FirstCharLess(names[3], names[4]);
  }

  /** "BEAMSWITCH" is a proper prefix of "BEAMSWITCHEDTBONLY", so sorts first. */
  lemma BeamSwitchBeforeTbOnly()
    ensures StrLess(CalOptsNames()[0], CalOptsNames()[1])
  {
    var a, b := CalOptsNames()[0], CalOptsNames()[1];
    assert b[..|a|] == a;
    LexPrefixLess(a, b, CharLess);
  }

  lemma CalOptsNamesSorted()
    ensures StrictlySorted(CalOptsNames(), StrLess)
  {
    CalOptsNeighbours();
    StrLessIsStrictTotal();
    ChainStrictlySorted(CalOptsNames(), StrLess);
  }

  /** The names CALOPTS.all() lists. */
  lemma CalOptsAll()
    ensures AllOf(CALOPTS) == ["BEAMSWITCH", "BEAMSWITCHEDTBONLY", "DUALBEAM", "RAW", "TOTALPOWER"]
  {
    var attrs := Attrs(CALOPTS);
    CalOptsDataNames();
    AllCharacterised(attrs);
    CalOptsNamesSorted();
    StrLessIsStrictTotal();
    StrictlySortedDetermined(All(attrs), CalOptsNames(), StrLess);
  }

  /** Because all() lists names, the option value 'Avg' does not pass POLOPTS.isValid. */
  lemma PolOptsRejectsAvg()
    ensures !IsValid(POLOPTS, "Avg") && IsValid(POLOPTS, "AVG")
  {
    PolOptsAll();
  }

  /** POLS.isValid accepts exactly the four polarizations. */
  lemma PolsValid(p: string)
    ensures IsValid(POLS, p) <==> p == "X" || p == "Y" || p == "L" || p == "R"
  {
  }

  /** The option values, which is what all() evidently means to list. */
  function Values(attrs: seq<Attr>): seq<string>
  {
    if |attrs| == 0 then []
    else if attrs[0].value.StrValue? && !IsDunder(attrs[0].name)
    then [attrs[0].value.s] + Values(attrs[1..])
    else Values(attrs[1..])
  }

  /** all() corrected to return values; POLS keeps its override. */
  function AllValuesOf(c: OptionClass): seq<string>
  {
    if c == POLS then ["X", "Y"] + ["L", "R"] else Values(Attrs(c))
  }

  predicate IsValidValue(c: OptionClass, value: string)
  {
    value in AllValuesOf(c)
  }

  lemma {:induction false} ValuesAppend(a: seq<Attr>, b: seq<Attr>)
    ensures Values(a + b) == Values(a) + Values(b)
  {
    if |a| > 0 {
      assert (a + b)[1..] == a[1..] + b;
      ValuesAppend(a[1..], b);
    } else {
      assert a + b == b;
    }
  }

  lemma OwnValues(c: OptionClass)
    ensures Values(Attrs(c)) == Values(Own(c))
  {
    ValuesAppend(Own(c), Inherited());
  }

  /** With values listed, isValid accepts the options the pipeline compares against. */
  lemma ValuesAccepted()
    ensures AllValuesOf(POLOPTS) == ["XL", "YR", "Avg"]
    ensures IsValidValue(POLOPTS, "Avg") && !IsValidValue(POLOPTS, "AVG")
  {
    OwnValues(POLOPTS);
    var own := Own(POLOPTS);
    var rest, last := own[1..], own[2..];
    assert rest[1..] == last && last[1..] == [];
    assert Values(last) == ["Avg"];
    assert Values(rest) == ["YR", "Avg"];
    assert Values(own) == ["XL", "YR", "Avg"];
    assert "AVG" != "XL" && "AVG" != "YR" && "AVG" != "Avg";
  }
}
