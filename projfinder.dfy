/**
 * The pure parts of the project finder: the two-digit year abbreviation,
 * the year check, the split of a scan log's FILEPATH column into MANAGER
 * and FITSNAME, and the checks that `search` makes of its arguments.
 * Directory walks, globbing and FITS reads are not modelled.
 */
module ProjFinder {
  import opened Wrappers
  import Text

  // ---- getYearAbbrev ----

  /** The last two characters of a string, or all of it when shorter (Python's s[-2:]). */
  function LastTwo(s: string): string
  {
    if |s| >= 2 then s[|s| - 2..] else s
  }

  /** getYearAbbrev: int(str(year)[-2:]), refusing negative years. */
  function YearAbbrev(year: int): Result<nat>
  {
    if year < 0 then Err(ValueError("year must be positive!"))
    else
      var s := Text.NatToStr(year);
      Ok(Text.DigitsValue(LastTwo(s)))
  }

  /** The abbreviation of a year is the year modulo 100, and negative years raise ValueError. */
  lemma YearAbbrevMeaning(year: int)
    ensures YearAbbrev(year).Ok? <==> year >= 0
    ensures year >= 0 ==> YearAbbrev(year).value == year % 100
    ensures year < 0 ==> YearAbbrev(year).error.ValueError?
  {
    if year >= 0 {
      Text.LastTwoDigits(year);
    }
  }

  /** The abbreviations the tests expect. */
  lemma YearAbbrevExamples()
    ensures YearAbbrev(2017) == Ok(17)
    ensures YearAbbrev(10123) == Ok(23)
    ensures YearAbbrev(0) == Ok(0)
    ensures YearAbbrev(17) == Ok(17)
    ensures YearAbbrev(-2017).Err?
  {
    YearAbbrevMeaning(2017);
    YearAbbrevMeaning(10123);
    YearAbbrevMeaning(0);
    YearAbbrevMeaning(17);
  }

  // ---- yearIsValid ----

  /**
   * yearIsValid: a full year from 2000 to this year, or an abbreviation
   * from getYearAbbrev(2000) to this year's.  The current date is a
   * parameter.
   */
  function YearIsValid(year: int, thisYear: int): Result<bool>
  {
    var current :- YearAbbrev(thisYear);
    var low :- YearAbbrev(2000);
    Ok((2000 <= year < thisYear + 1) || (low <= year < current + 1))
  }

  /** A year is valid exactly when it lies in 2000..thisYear or in 0..thisYear mod 100. */
  lemma YearIsValidMeaning(year: int, thisYear: int)
    ensures YearIsValid(year, thisYear).Ok? <==> thisYear >= 0
    ensures thisYear >= 0 ==>
      (YearIsValid(year, thisYear).value <==> (2000 <= year <= thisYear || 0 <= year <= thisYear % 100))
  {
    AbbrevOf2000();
    YearAbbrevMeaning(thisYear);
  }

  /** getYearAbbrev(2000) is 0. */
  lemma AbbrevOf2000()
    ensures YearAbbrev(2000) == Ok(0)
  {
    YearAbbrevMeaning(2000);
  }

  /** The tests' cases, for any current year from 2017 on: 2017 is valid, 1900 and next year are not. */
  lemma YearIsValidExamples(thisYear: int)
    requires thisYear >= 2017
    ensures YearIsValid(2017, thisYear) == Ok(true)
    ensures YearIsValid(1900, thisYear) == Ok(false)
    ensures YearIsValid(thisYear + 1, thisYear) == Ok(false)
  {
    YearIsValidMeaning(2017, thisYear);
    YearIsValidMeaning(1900, thisYear);
    YearIsValidMeaning(thisYear + 1, thisYear);
  }

  // ---- parseScanLog ----

  /** Python's message when a split does not unpack into four names. */
  function UnpackMsg(): string { "expected 4 values" }

  /**
   * The MANAGER and FITSNAME of one scan log row, from its right-stripped
   * FILEPATH: the third and fourth pieces of a split on '/', which must
   * give exactly four; both empty for a row that names a scan.
   */
  function ScanLogEntry(filePath: string): Result<(string, string)>
  {
    var path := Text.RStrip(filePath);
    if Text.Contains(path, "SCAN ") then Ok(("", ""))
    else
      var parts := Text.Split(path, '/');
      if |parts| != 4 then Err(ValueError(UnpackMsg()))
      else Ok((parts[2], parts[3]))
  }

  /**
   * A FILEPATH that names no scan yields a MANAGER and FITSNAME exactly
   * when it has three slashes, and is then the stripped path rebuilt from
   * two leading names, the manager and the file name, none holding '/'.
   */
  lemma ScanLogEntryMeaning(filePath: string)
    ensures var path, r := Text.RStrip(filePath), ScanLogEntry(filePath);
      (Text.Contains(path, "SCAN ") ==> r == Ok(("", ""))) &&
      (!Text.Contains(path, "SCAN ") ==>
        (r.Ok? <==> |Text.Split(path, '/')| == 4) &&
        (r.Err? ==> r.error == ValueError(UnpackMsg())) &&
        (r.Ok? ==> ('/' !in r.value.0 && '/' !in r.value.1 &&
          exists a, b :: '/' !in a && '/' !in b && path == a + "/" + b + "/" + r.value.0 + "/" + r.value.1)))
  {
    var path := Text.RStrip(filePath);
    if !Text.Contains(path, "SCAN ") && |Text.Split(path, '/')| == 4 {
      FourPieces(path);
    }
  }

  /** A path that splits into four pieces is rebuilt from them, none holding '/'. */
  lemma FourPieces(path: string)
    requires |Text.Split(path, '/')| == 4
    ensures var parts := Text.Split(path, '/');
      '/' !in parts[0] && '/' !in parts[1] && '/' !in parts[2] && '/' !in parts[3] &&
      path == parts[0] + "/" + parts[1] + "/" + parts[2] + "/" + parts[3]
  {
    var parts := Text.Split(path, '/');
    Text.SplitJoin(path, '/');
    assert parts[1..][1..][1..] == [parts[3]];
    assert Text.Join(parts[2..], '/') == parts[2] + "/" + parts[3];
    assert parts[1..][1..] == parts[2..];
    assert Text.Join(parts[1..], '/') == parts[1] + "/" + Text.Join(parts[2..], '/');
    assert Text.Join(parts, '/') == parts[0] + "/" + Text.Join(parts[1..], '/');
  }

  /** The scan log's rows and the two columns parseScanLog adds to it. */
  datatype ScanLog = ScanLog(filePaths: seq<string>, managers: seq<string>, fitsNames: seq<string>)

  /** The columns agree row by row with ScanLogEntry. */
  predicate Parsed(log: ScanLog)
  {
    |log.managers| == |log.filePaths| && |log.fitsNames| == |log.filePaths| &&
    forall i :: 0 <= i < |log.filePaths| ==> ScanLogEntry(log.filePaths[i]) == Ok((log.managers[i], log.fitsNames[i]))
  }

  /**
   * parseScanLog: one MANAGER and FITSNAME per row, in row order; the first
   * row that does not unpack raises ValueError.
   */
  method ParseScanLog(filePaths: seq<string>) returns (r: Result<ScanLog>)
    ensures r.Ok? <==> forall i :: 0 <= i < |filePaths| ==> ScanLogEntry(filePaths[i]).Ok?
    ensures r.Ok? ==> r.value.filePaths == filePaths && Parsed(r.value)
    ensures r.Err? ==> r.error == ValueError(UnpackMsg())
  {
    var managers: seq<string> := [];
    var fitsNames: seq<string> := [];
    var i := 0;
    while i < |filePaths|
      invariant 0 <= i <= |filePaths|
      invariant |managers| == i && |fitsNames| == i
      invariant forall j :: 0 <= j < i ==> ScanLogEntry(filePaths[j]) == Ok((managers[j], fitsNames[j]))
    {
      ScanLogEntryMeaning(filePaths[i]);
      var entry := ScanLogEntry(filePaths[i]);
      if entry.Err? {
        return Err(entry.error);
      }
      managers := managers + [entry.value.0];
      fitsNames := fitsNames + [entry.value.1];
      i := i + 1;
    }
    r := Ok(ScanLog(filePaths, managers, fitsNames));
  }

  // ---- search: argument checks ----

  /** The arguments of ProjectFinder.search other than the managers. */
  datatype SearchOptions = SearchOptions(
    obsData: bool, testData: bool, minYear: Option<int>, maxYear: Option<int>, semester: string,
    searchAll: bool, searchArchive: bool, searchGbtdata: bool, stopAfterFirstMatch: bool)

  /**
   * re.match of ^(?P<year>\d{2})(?P<code>[ABCD])$: two digits and a
   * semester code, where '$' also matches before one final newline.
   */
  predicate SemesterMatches(s: string)
  {
    (|s| == 3 || (|s| == 4 && s[3] == '\n')) && Text.IsDigit(s[0]) && Text.IsDigit(s[1]) && s[2] in "ABCD"
  }

  function ObsTestMsg(): string { "obsData or testData" }
  function SemesterMsg(): string { "bad semester" }

  /**
   * The start of search: searchAll turns every data source on and drops
   * the year bounds; then at least one of obsData and testData, and a
   * non-empty semester must match the pattern.  The result is the options
   * search goes on with.
   */
  function SearchArgs(o: SearchOptions): Result<SearchOptions>
  {
    var o' := if o.searchAll
      then o.(obsData := true, testData := true, minYear := None, maxYear := None,
              searchArchive := true, searchGbtdata := true)
      else o;
    if !o'.obsData && !o'.testData then Err(ValueError(ObsTestMsg()))
    else if o'.semester != "" && !SemesterMatches(o'.semester) then Err(ValueError(SemesterMsg()))
    else Ok(o')
  }

  /**
   * With searchAll the flags are on, the years cleared and only the
   * semester can fail; without it the options are checked unchanged and
   * fail exactly when both data kinds are off or the semester is malformed.
   */
  lemma SearchArgsMeaning(o: SearchOptions)
    ensures var r := SearchArgs(o);
      (o.searchAll ==>
        (r.Ok? <==> (o.semester == "" || SemesterMatches(o.semester))) &&
        (r.Ok? ==> (r.value.obsData && r.value.testData && r.value.searchArchive && r.value.searchGbtdata &&
           r.value.minYear.None? && r.value.maxYear.None? && r.value.semester == o.semester &&
           r.value.stopAfterFirstMatch == o.stopAfterFirstMatch))) &&
      (!o.searchAll ==>
        (r.Ok? <==> (o.obsData || o.testData) && (o.semester == "" || SemesterMatches(o.semester))) &&
        (r.Ok? ==> r.value == o)) &&
      (r.Err? ==> r.error.ValueError?)
  {
  }

  /** The semesters of the usage message and malformed ones. */
  lemma SemesterExamples()
    ensures SemesterMatches("17A") && SemesterMatches("09D") && SemesterMatches("17B\n")
    ensures !SemesterMatches("17E") && !SemesterMatches("2017A") && !SemesterMatches("1A")
  {
  }
}
