// DcrTable: the DCR data of one scan as one table with a row per
// (IF row, phase).  A phase is a (SIGREF, CAL) state: SIGREF 0 is the signal
// beam, 1 the reference beam; CAL 1 means the noise diode is on.
// _consolidateFitsData builds the table from the DCR STATE and DATA tables
// and the DCR rows of the IF table; the getters select rows from it.

module DcrTable {
  import opened Wrappers
  import opened Ordering

  /** One row of the DCR STATE table. */
  datatype StateRow = StateRow(sigref: int, cal: int)

  /** One DCR row of the IF table, with the columns the consolidation keeps. */
  datatype IfRow = IfRow(feed: int, receptor: string, polarize: string, centerSky: real,
                         bandwidth: real, port: int, highCal: int, receiver: string)

  /**
   * The DATA column of the DCR DATA table: samples[t][port][phase] is the
   * count of integration t.
   */
  datatype DcrData = DcrData(ports: nat, phases: nat, samples: seq<seq<seq<real>>>)

  /** A numpy array is rectangular: every integration has ports × phases counts. */
  predicate Shaped(d: DcrData)
  {
    forall t :: 0 <= t < |d.samples| ==>
      |d.samples[t]| == d.ports && forall q :: 0 <= q < d.ports ==> |d.samples[t][q]| == d.phases
  }

  /** One row of the consolidated table. */
  datatype DcrRow = DcrRow(feed: int, receptor: string, polarize: string, centerSky: real,
                           bandwidth: real, port: int, highCal: int, sigref: int, cal: int,
                           data: seq<real>, factor: real)

  /**
   * A consolidated table with its meta values.  hasFactor says whether the
   * FACTOR column has been added; until then the rows' factor is meaningless.
   */
  datatype DcrTable = DcrTable(rows: seq<DcrRow>, receiver: string, trackBeam: int, hasFactor: bool)

  // ---- the STATE checks ----

  function CalValues(state: seq<StateRow>): (r: seq<int>)
    ensures |r| == |state| && forall i :: 0 <= i < |r| ==> r[i] == state[i].cal
  {
    seq(|state|, i requires 0 <= i < |state| => state[i].cal)
  }

  function SigRefValues(state: seq<StateRow>): (r: seq<int>)
    ensures |r| == |state| && forall i :: 0 <= i < |r| ==> r[i] == state[i].sigref
  {
    seq(|state|, i requires 0 <= i < |state| => state[i].sigref)
  }

  /** list(numpy.unique(values)) in [[0], [1], [0, 1]] */
  predicate ValidStates(values: seq<int>)
  {
    SortedUnique(values, IntLess) in [[0], [1], [0, 1]]
  }

  /** The state check passes exactly when there is a value and every value is 0 or 1. */
  lemma ValidStatesMeaning(values: seq<int>)
    ensures ValidStates(values) <==> |values| > 0 && forall i :: 0 <= i < |values| ==> values[i] == 0 || values[i] == 1
  {
    var u := SortedUnique(values, IntLess);
    BasicOrders();
    SortedUniqueProperties(values, IntLess);
    SortedUniqueLength(values, IntLess);
    if |values| > 0 && forall i :: 0 <= i < |values| ==> values[i] == 0 || values[i] == 1 {
      assert forall y :: y in u ==> y == 0 || y == 1;
      var expected := if 0 in values && 1 in values then [0, 1] else if 0 in values then [0] else [1];
      assert values[0] in values;
      StrictlySortedDetermined(u, expected, IntLess);
    }
    if ValidStates(values) {
      forall i | 0 <= i < |values| ensures values[i] == 0 || values[i] == 1 {
        assert values[i] in u;
      }
    }
  }

  /** Phases are ordered as numpy orders (SIGREF, CAL) records. */
  function StateLess(a: StateRow, b: StateRow): bool
  {
    a.sigref < b.sigref || (a.sigref == b.sigref && a.cal < b.cal)
  }

  lemma StateLessIsStrictTotal()
    ensures StrictTotalOrder(StateLess)
  {
  }

  /** len(numpy.unique(dcrStateTable['SIGREF', 'CAL'])) */
  function NumPhases(state: seq<StateRow>): nat
  {
    |SortedUnique(state, StateLess)|
  }

  function Receivers(ifRows: seq<IfRow>): (r: seq<string>)
    ensures |r| == |ifRows| && forall i :: 0 <= i < |r| ==> r[i] == ifRows[i].receiver
  {
    seq(|ifRows|, i requires 0 <= i < |ifRows| => ifRows[i].receiver)
  }

  /** The STATE and receiver checks that precede the layout. */
  predicate Checked(state: seq<StateRow>, ifRows: seq<IfRow>)
  {
    ValidStates(CalValues(state)) && ValidStates(SigRefValues(state)) &&
    |SortedUnique(Receivers(ifRows), StrLess)| == 1
  }

  lemma CheckedNonEmpty(state: seq<StateRow>, ifRows: seq<IfRow>)
    requires Checked(state, ifRows)
    ensures |state| > 0 && |ifRows| > 0 && NumPhases(state) > 0
  {
    ValidStatesMeaning(CalValues(state));
    assert SortedUnique(Receivers(ifRows), StrLess) != [];
    SortedUniqueLength(state, StateLess);
  }

  // ---- the skeleton: IF rows replicated per phase, sorted by PORT, beside the tiled STATE ----

  /** vstack([s] * n) */
  function Repeat<T>(s: seq<T>, n: nat): (r: seq<T>)
    ensures |r| == |s| * n
  {
    if n == 0 then [] else s + Repeat(s, n - 1)
  }

  /** Insert after every row with the same or a smaller PORT. */
  function InsertByPort(x: IfRow, s: seq<IfRow>): (r: seq<IfRow>)
    ensures |r| == |s| + 1
  {
    if |s| == 0 then [x]
    else if x.port < s[0].port then [x] + s
    else [s[0]] + InsertByPort(x, s[1..])
  }

  /** table.sort('PORT'), modelled as a stable sort. */
  function SortByPort(s: seq<IfRow>): (r: seq<IfRow>)
    ensures |r| == |s|
  {
    if |s| == 0 then [] else InsertByPort(s[|s| - 1], SortByPort(s[..|s| - 1]))
  }

  predicate PortSorted(s: seq<IfRow>)
  {
    forall i, j :: 0 <= i < j < |s| ==> s[i].port <= s[j].port
  }

  /** Inserting adds the row to the multiset of rows. */
  lemma {:induction false} InsertByPortCount(x: IfRow, s: seq<IfRow>)
    ensures multiset(InsertByPort(x, s)) == multiset(s) + multiset{x}
  {
    if |s| > 0 && x.port >= s[0].port {
      InsertByPortCount(x, s[1..]);
      assert s == [s[0]] + s[1..];
    }
  }

  /** Inserting into rows sorted by PORT keeps them sorted. */
  lemma {:induction false} InsertByPortSorted(x: IfRow, s: seq<IfRow>)
    requires PortSorted(s)
    ensures PortSorted(InsertByPort(x, s))
  {
    if |s| > 0 && x.port >= s[0].port {
      InsertByPortSorted(x, s[1..]);
      InsertByPortBound(x, s[1..], s[0].port);
      var t := InsertByPort(x, s[1..]);
      assert InsertByPort(x, s) == [s[0]] + t;
    }
  }

  /** A lower bound on the PORT of the rows and of the inserted row bounds the result. */
  lemma {:induction false} InsertByPortBound(x: IfRow, s: seq<IfRow>, lo: int)
    requires lo <= x.port && forall j :: 0 <= j < |s| ==> lo <= s[j].port
    ensures forall j :: 0 <= j < |InsertByPort(x, s)| ==> lo <= InsertByPort(x, s)[j].port
  {
    if |s| > 0 && x.port >= s[0].port {
      InsertByPortBound(x, s[1..], lo);
      assert InsertByPort(x, s) == [s[0]] + InsertByPort(x, s[1..]);
    }
  }

  /** Sorting by PORT orders the rows by port and only rearranges them. */
  lemma SortByPortProperties(s: seq<IfRow>)
    ensures PortSorted(SortByPort(s))
    ensures multiset(SortByPort(s)) == multiset(s)
  {
    SortByPortSorted(s);
    SortByPortCount(s);
  }

  lemma {:induction false} SortByPortSorted(s: seq<IfRow>)
    ensures PortSorted(SortByPort(s))
  {
    if |s| > 0 {
      SortByPortSorted(s[..|s| - 1]);
      InsertByPortSorted(s[|s| - 1], SortByPort(s[..|s| - 1]));
    }
  }

  lemma {:induction false} SortByPortCount(s: seq<IfRow>)
    ensures multiset(SortByPort(s)) == multiset(s)
  {
    if |s| > 0 {
      var init, last := s[..|s| - 1], s[|s| - 1];
      var sorted := SortByPort(init);
      SortByPortCount(init);
      InsertByPortCount(last, sorted);
      assert SortByPort(s) == InsertByPort(last, sorted);
      MultisetSnoc(s);
    }
  }

  /** The multiset of a non-empty sequence is that of its front plus its last element. */
  lemma MultisetSnoc<T>(s: seq<T>)
    requires |s| > 0
    ensures multiset(s) == multiset(s[..|s| - 1]) + multiset{s[|s| - 1]}
  {
    assert s == s[..|s| - 1] + [s[|s| - 1]];
  }

  function Zeros(n: nat): (r: seq<real>)
    ensures |r| == n && forall j :: 0 <= j < n ==> r[j] == 0.0
  {
    seq(n, _ => 0.0)
  }

  /** An IF row beside its STATE row; DATA starts as zeros of the integration count. */
  function MakeRow(f: IfRow, st: StateRow, n: nat): DcrRow
  {
    DcrRow(f.feed, f.receptor, f.polarize, f.centerSky, f.bandwidth, f.port, f.highCal,
           st.sigref, st.cal, Zeros(n), 0.0)
  }

  lemma MulMonotone(a: nat, b: nat, c: nat)
    requires b <= c
    ensures a * b <= a * c && b * a <= c * a
  {
  }

  /** a·B + q with 0 <= q < B lies below n·B when a < n. */
  lemma MulAddBound(a: nat, q: nat, n: nat, B: nat)
    requires a < n && q < B
    ensures a * B + q < n * B
  {
    MulMonotone(B, a + 1, n);
    assert (a + 1) * B == a * B + B;
  }

  /** a·B + q with 0 <= q < B determines a and q. */
  lemma MulAddUnique(a: nat, q: nat, a': nat, q': nat, B: nat)
    requires q < B && q' < B && a * B + q == a' * B + q'
    ensures a == a' && q == q'
  {
    if a < a' {
      MulAddBound(a, q, a', B);
    } else if a' < a {
      MulAddBound(a', q', a, B);
    }
  }

  /** The hstack of the sorted, replicated IF rows with the tiled STATE rows. */
  function Skeleton(state: seq<StateRow>, ifRows: seq<IfRow>, n: nat): (r: seq<DcrRow>)
    ensures |r| == |ifRows| * NumPhases(state)
  {
    var sorted := SortByPort(Repeat(ifRows, NumPhases(state)));
    var tiled := Repeat(state, |ifRows|);
    SortedUniqueLength(state, StateLess);
    MulMonotone(|ifRows|, NumPhases(state), |state|);
    assert |ifRows| * |state| == |state| * |ifRows|;
    seq(|sorted|, k requires 0 <= k < |sorted| => MakeRow(sorted[k], tiled[k], n))
  }

  // ---- writing the DATA slices ----

  /** The position of phase (s, c) of port p in the table: portIndex·(nS·nC) + s·nC + c. */
  function Index(p: int, s: int, c: int, nS: int, nC: int): int
  {
    p * (nS * nC) + s * nC + c
  }

  /**
   * The write index lies in [0, nP·nS·nC), and distinct (port, sigref, cal)
   * positions get distinct rows.
   */
  lemma IndexBoundedInjective(p: nat, s: nat, c: nat, p': nat, s': nat, c': nat, nP: nat, nS: nat, nC: nat)
    requires p < nP && s < nS && c < nC && p' < nP && s' < nS && c' < nC
    ensures 0 <= Index(p, s, c, nS, nC) < nP * (nS * nC)
    ensures Index(p, s, c, nS, nC) == Index(p', s', c', nS, nC) ==> p == p' && s == s' && c == c'
  {
    MulAddBound(s, c, nS, nC);
    MulAddBound(s', c', nS, nC);
    MulAddBound(p, s * nC + c, nP, nS * nC);
    if Index(p, s, c, nS, nC) == Index(p', s', c', nS, nC) {
      MulAddUnique(p, s * nC + c, p', s' * nC + c', nS * nC);
      MulAddUnique(s, c, s', c', nC);
    }
  }

  /** Finishing a CAL sweep moves to the next SIGREF value; finishing a sweep of those, to the next port. */
  lemma IndexNext(p: nat, s: nat, nS: nat, nC: nat)
    ensures Index(p, s, nC, nS, nC) == Index(p, s + 1, 0, nS, nC)
    ensures Index(p, nS, 0, nS, nC) == Index(p + 1, 0, 0, nS, nC)
  {
    assert (s + 1) * nC == s * nC + nC;
    assert (p + 1) * (nS * nC) == p * (nS * nC) + nS * nC;
  }

  /** How many STATE rows are the given phase. */
  function Count(state: seq<StateRow>, x: StateRow): nat
  {
    if |state| == 0 then 0 else (if state[0] == x then 1 else 0) + Count(state[1..], x)
  }

  /** The first STATE row that is the given phase, or |state|: its PHASE number. */
  function FirstMatch(state: seq<StateRow>, x: StateRow): (r: nat)
    ensures r <= |state| && (r < |state| <==> x in state)
    ensures r < |state| ==> state[r] == x
    ensures forall i :: 0 <= i < r ==> state[i] != x
  {
    if |state| == 0 then 0
    else if state[0] == x then 0
    else
      var r := FirstMatch(state[1..], x);
      assert forall i :: 1 <= i < |state| ==> state[i] == state[1..][i - 1];
      r + 1
  }

  lemma {:induction false} CountPositive(state: seq<StateRow>, x: StateRow)
    ensures Count(state, x) > 0 <==> x in state
  {
    if |state| > 0 {
      CountPositive(state[1..], x);
      assert state == [state[0]] + state[1..];
    }
  }

  /** DATA[::, p, phase]: the counts of one port and phase, integration by integration. */
  function Slice(d: DcrData, p: nat, phase: nat): (r: seq<real>)
    requires Shaped(d) && p < d.ports && phase < d.phases
    ensures |r| == |d.samples| && forall t :: 0 <= t < |r| ==> r[t] == d.samples[t][p][phase]
  {
    seq(|d.samples|, t requires 0 <= t < |d.samples| => d.samples[t][p][phase])
  }

  /** A phase of the loop is resolved: one STATE row, inside the DATA array. */
  predicate PhaseResolved(state: seq<StateRow>, d: DcrData, x: StateRow)
  {
    Count(state, x) == 1 && FirstMatch(state, x) < d.phases
  }

  function UniqueSigRefs(state: seq<StateRow>): seq<int>
  {
    SortedUnique(SigRefValues(state), IntLess)
  }

  function UniqueCals(state: seq<StateRow>): seq<int>
  {
    SortedUnique(CalValues(state), IntLess)
  }

  function Ports(rows: seq<DcrRow>): (r: seq<int>)
    ensures |r| == |rows| && forall i :: 0 <= i < |r| ==> r[i] == rows[i].port
  {
    seq(|rows|, i requires 0 <= i < |rows| => rows[i].port)
  }

  /**
   * The triple loop runs to the end: every port has a slice in DATA, every
   * (SIGREF, CAL) pair of the unique values is exactly one STATE row inside
   * DATA, and every write index is a row of the table.
   */
  predicate LoopSucceeds(nP: nat, us: seq<int>, uc: seq<int>, state: seq<StateRow>, d: DcrData, n: nat)
  {
    (nP > 0 && |us| > 0 && |uc| > 0 ==> nP <= d.ports && nP * (|us| * |uc|) <= n) &&
    (nP > 0 ==> forall s, c :: 0 <= s < |us| && 0 <= c < |uc| ==> PhaseResolved(state, d, StateRow(us[s], uc[c])))
  }

  /**
   * Every (port, sigref, cal) position before `done` has been written: its
   * index is a row, its port and phase are in DATA, and the row holds its slice.
   */
  predicate WrittenBelow(col: seq<seq<real>>, done: int, nP: nat, us: seq<int>, uc: seq<int>, state: seq<StateRow>, d: DcrData)
    requires Shaped(d)
  {
    forall p, s, c :: 0 <= p < nP && 0 <= s < |us| && 0 <= c < |uc| && Index(p, s, c, |us|, |uc|) < done ==>
      0 <= Index(p, s, c, |us|, |uc|) < |col| && p < d.ports && PhaseResolved(state, d, StateRow(us[s], uc[c])) &&
      col[Index(p, s, c, |us|, |uc|)] == Slice(d, p, FirstMatch(state, StateRow(us[s], uc[c])))
  }

  /** No row from `done` on has been written. */
  predicate ZerosFrom(col: seq<seq<real>>, done: int, z: seq<real>)
  {
    forall k :: done <= k < |col| && 0 <= k ==> col[k] == z
  }

  /** What the loop leaves in the DATA column. */
  predicate Written(col: seq<seq<real>>, nP: nat, us: seq<int>, uc: seq<int>, state: seq<StateRow>, d: DcrData)
    requires Shaped(d)
  {
    WrittenBelow(col, nP * (|us| * |uc|), nP, us, uc, state, d) &&
    ZerosFrom(col, nP * (|us| * |uc|), Zeros(|d.samples|))
  }

  /**
   * The triple loop of _consolidateFitsData over ports, SIGREF values and CAL
   * values: each (port, sigref, cal) writes its DATA slice at the row-major
   * index, and nothing else is written.
   */
  method WritePhaseData(n: nat, nP: nat, us: seq<int>, uc: seq<int>, state: seq<StateRow>, d: DcrData)
    returns (r: Result<seq<seq<real>>>)
    requires Shaped(d)
    ensures r.Ok? <==> LoopSucceeds(nP, us, uc, state, d, n)
    ensures r.Err? ==> r.error == IndexError || r.error == ValueError(PhaseMsg())
    ensures r.Ok? ==> |r.value| == n && Written(r.value, nP, us, uc, state, d)
  {
    var nS, nC := |us|, |uc|;
    var z := Zeros(|d.samples|);
    var col := seq(n, _ => z);
    var p := 0;
    while p < nP
      invariant 0 <= p <= nP && |col| == n && Index(p, 0, 0, nS, nC) <= n
      invariant WrittenBelow(col, Index(p, 0, 0, nS, nC), nP, us, uc, state, d)
      invariant ZerosFrom(col, Index(p, 0, 0, nS, nC), z)
    {
      var next := WritePort(col, z, n, nP, us, uc, state, d, p);
      if next.Err? {
        return next;
      }
      col := next.value;
      IndexNext(p, nS, nS, nC);
      p := p + 1;
    }
    LoopDone(col, z, n, nP, us, uc, state, d);
    return Ok(col);
  }

  /** The loops over SIGREF and CAL values for one port. */
  method WritePort(col0: seq<seq<real>>, z: seq<real>, n: nat, nP: nat, us: seq<int>, uc: seq<int>,
                   state: seq<StateRow>, d: DcrData, p: nat)
    returns (r: Result<seq<seq<real>>>)
    requires Shaped(d) && z == Zeros(|d.samples|) && p < nP
    requires |col0| == n && Index(p, 0, 0, |us|, |uc|) <= n
    requires WrittenBelow(col0, Index(p, 0, 0, |us|, |uc|), nP, us, uc, state, d)
    requires ZerosFrom(col0, Index(p, 0, 0, |us|, |uc|), z)
    ensures r.Err? ==> (r.error == IndexError || r.error == ValueError(PhaseMsg())) && !LoopSucceeds(nP, us, uc, state, d, n)
    ensures r.Ok? ==>
      |r.value| == n && Index(p, |us|, 0, |us|, |uc|) <= n &&
      WrittenBelow(r.value, Index(p, |us|, 0, |us|, |uc|), nP, us, uc, state, d) &&
      ZerosFrom(r.value, Index(p, |us|, 0, |us|, |uc|), z)
  {
    var nS, nC := |us|, |uc|;
    var col := col0;
    var s := 0;
    while s < nS
      invariant 0 <= s <= nS && |col| == n && Index(p, s, 0, nS, nC) <= n
      invariant WrittenBelow(col, Index(p, s, 0, nS, nC), nP, us, uc, state, d)
      invariant ZerosFrom(col, Index(p, s, 0, nS, nC), z)
    {
      var next := WriteSigRef(col, z, n, nP, us, uc, state, d, p, s);
      if next.Err? {
        return next;
      }
      col := next.value;
      IndexNext(p, s, nS, nC);
      s := s + 1;
    }
    return Ok(col);
  }

  /** The innermost loop over CAL values for one port and one SIGREF value. */
  method WriteSigRef(col0: seq<seq<real>>, z: seq<real>, n: nat, nP: nat, us: seq<int>, uc: seq<int>,
                     state: seq<StateRow>, d: DcrData, p: nat, s: nat)
    returns (r: Result<seq<seq<real>>>)
    requires Shaped(d) && z == Zeros(|d.samples|) && p < nP && s < |us|
    requires |col0| == n && Index(p, s, 0, |us|, |uc|) <= n
    requires WrittenBelow(col0, Index(p, s, 0, |us|, |uc|), nP, us, uc, state, d)
    requires ZerosFrom(col0, Index(p, s, 0, |us|, |uc|), z)
    ensures r.Err? ==> (r.error == IndexError || r.error == ValueError(PhaseMsg())) && !LoopSucceeds(nP, us, uc, state, d, n)
    ensures r.Ok? ==>
      |r.value| == n && Index(p, s, |uc|, |us|, |uc|) <= n &&
      WrittenBelow(r.value, Index(p, s, |uc|, |us|, |uc|), nP, us, uc, state, d) &&
      ZerosFrom(r.value, Index(p, s, |uc|, |us|, |uc|), z)
  {
    var nS, nC := |us|, |uc|;
    var col := col0;
    var c := 0;
    while c < nC
      invariant 0 <= c <= nC && |col| == n && Index(p, s, c, nS, nC) <= n
      invariant WrittenBelow(col, Index(p, s, c, nS, nC), nP, us, uc, state, d)
      invariant ZerosFrom(col, Index(p, s, c, nS, nC), z)
    {
      var x := StateRow(us[s], uc[c]);
      if Count(state, x) != 1 {
        BadPhase(nP, us, uc, state, d, n, p, s, c);
        return Err(ValueError(PhaseMsg()));
      }
      var phase := FirstMatch(state, x);
      var idx := p * (nS * nC) + s * nC + c;
      if !(p < d.ports && phase < d.phases) {
        if p < d.ports {
          BadPhase(nP, us, uc, state, d, n, p, s, c);
        } else {
          BadPort(nP, us, uc, state, d, n, p);
        }
        return Err(IndexError);
      }
      var slice := Slice(d, p, phase);
      if idx >= n {
        BadIndex(nP, us, uc, state, d, n, p, s, c);
        return Err(IndexError);
      }
      WriteStep(col, z, nP, us, uc, state, d, p, s, c);
      col := col[idx := slice];
      c := c + 1;
    }
    return Ok(col);
  }

  function PhaseMsg(): string
  {
    "ambiguous PHASE"
  }

  lemma BadPhase(nP: nat, us: seq<int>, uc: seq<int>, state: seq<StateRow>, d: DcrData, n: nat, p: nat, s: nat, c: nat)
    requires p < nP && s < |us| && c < |uc|
    requires !PhaseResolved(state, d, StateRow(us[s], uc[c]))
    ensures !LoopSucceeds(nP, us, uc, state, d, n)
  {
  }

  lemma BadPort(nP: nat, us: seq<int>, uc: seq<int>, state: seq<StateRow>, d: DcrData, n: nat, p: nat)
    requires p < nP && 0 < |us| && 0 < |uc| && d.ports <= p
    ensures !LoopSucceeds(nP, us, uc, state, d, n)
  {
  }

  lemma BadIndex(nP: nat, us: seq<int>, uc: seq<int>, state: seq<StateRow>, d: DcrData, n: nat, p: nat, s: nat, c: nat)
    requires p < nP && s < |us| && c < |uc|
    requires Index(p, s, c, |us|, |uc|) >= n
    ensures !LoopSucceeds(nP, us, uc, state, d, n)
  {
    IndexBoundedInjective(p, s, c, p, s, c, nP, |us|, |uc|);
  }

  /** One write: the current position becomes written, and no earlier position is disturbed. */
  lemma WriteStep(col: seq<seq<real>>, z: seq<real>, nP: nat, us: seq<int>, uc: seq<int>, state: seq<StateRow>, d: DcrData,
                  p: nat, s: nat, c: nat)
    requires Shaped(d) && p < nP && s < |us| && c < |uc| && p < d.ports
    requires PhaseResolved(state, d, StateRow(us[s], uc[c]))
    requires Index(p, s, c, |us|, |uc|) < |col|
    requires WrittenBelow(col, Index(p, s, c, |us|, |uc|), nP, us, uc, state, d)
    requires ZerosFrom(col, Index(p, s, c, |us|, |uc|), z)
    ensures var done := Index(p, s, c, |us|, |uc|);
      var col' := col[done := Slice(d, p, FirstMatch(state, StateRow(us[s], uc[c])))];
      WrittenBelow(col', done + 1, nP, us, uc, state, d) && ZerosFrom(col', done + 1, z)
  {
    var done := Index(p, s, c, |us|, |uc|);
    var v := Slice(d, p, FirstMatch(state, StateRow(us[s], uc[c])));
    var col' := col[done := v];
    forall p', s', c' | 0 <= p' < nP && 0 <= s' < |us| && 0 <= c' < |uc| && Index(p', s', c', |us|, |uc|) < done + 1
      ensures 0 <= Index(p', s', c', |us|, |uc|) < |col'| && p' < d.ports && PhaseResolved(state, d, StateRow(us[s'], uc[c'])) &&
        col'[Index(p', s', c', |us|, |uc|)] == Slice(d, p', FirstMatch(state, StateRow(us[s'], uc[c'])))
    {
      WriteOne(col, v, nP, us, uc, state, d, p, s, c, p', s', c');
    }
    assert ZerosFrom(col', done + 1, z) by {
      forall k | done + 1 <= k < |col'| && 0 <= k ensures col'[k] == z {
        assert col'[k] == col[k];
      }
    }
  }

  lemma WriteOne(col: seq<seq<real>>, v: seq<real>, nP: nat, us: seq<int>, uc: seq<int>, state: seq<StateRow>, d: DcrData,
                 p: nat, s: nat, c: nat, p': nat, s': nat, c': nat)
    requires Shaped(d) && p < nP && s < |us| && c < |uc| && p < d.ports
    requires PhaseResolved(state, d, StateRow(us[s], uc[c]))
    requires v == Slice(d, p, FirstMatch(state, StateRow(us[s], uc[c])))
    requires Index(p, s, c, |us|, |uc|) < |col|
    requires WrittenBelow(col, Index(p, s, c, |us|, |uc|), nP, us, uc, state, d)
    requires p' < nP && s' < |us| && c' < |uc| && Index(p', s', c', |us|, |uc|) <= Index(p, s, c, |us|, |uc|)
    ensures var col' := col[Index(p, s, c, |us|, |uc|) := v];
      var k := Index(p', s', c', |us|, |uc|);
      0 <= k < |col'| && p' < d.ports && PhaseResolved(state, d, StateRow(us[s'], uc[c'])) &&
      col'[k] == Slice(d, p', FirstMatch(state, StateRow(us[s'], uc[c'])))
  {
    IndexBoundedInjective(p, s, c, p', s', c', nP, |us|, |uc|);
  }

  /** After the last port every position has been written. */
  lemma LoopDone(col: seq<seq<real>>, z: seq<real>, n: nat, nP: nat, us: seq<int>, uc: seq<int>, state: seq<StateRow>, d: DcrData)
    requires Shaped(d) && |col| == n && z == Zeros(|d.samples|)
    requires Index(nP, 0, 0, |us|, |uc|) <= n
    requires WrittenBelow(col, Index(nP, 0, 0, |us|, |uc|), nP, us, uc, state, d)
    requires ZerosFrom(col, Index(nP, 0, 0, |us|, |uc|), z)
    ensures LoopSucceeds(nP, us, uc, state, d, n) && Written(col, nP, us, uc, state, d)
  {
    var nS, nC := |us|, |uc|;
    assert Index(nP, 0, 0, nS, nC) == nP * (nS * nC);
    if nP > 0 && nS > 0 && nC > 0 {
      IndexBoundedInjective(nP - 1, 0, 0, nP - 1, 0, 0, nP, nS, nC);
      forall s, c | 0 <= s < nS && 0 <= c < nC ensures PhaseResolved(state, d, StateRow(us[s], uc[c])) {
        IndexBoundedInjective(0, s, c, 0, s, c, nP, nS, nC);
      }
    }
  }

  // ---- _consolidateFitsData ----

  function CalMsg(): string { "invalid CAL states" }
  function SigRefMsg(): string { "invalid SIGREF states" }
  function ReceiverMsg(): string { "one RECEIVER per scan" }

  function DataColumn(rows: seq<DcrRow>): (r: seq<seq<real>>)
    ensures |r| == |rows| && forall k :: 0 <= k < |r| ==> r[k] == rows[k].data
  {
    seq(|rows|, k requires 0 <= k < |rows| => rows[k].data)
  }

  /** The unique ports of the skeleton, which the triple loop walks. */
  function UniquePorts(state: seq<StateRow>, ifRows: seq<IfRow>, n: nat): seq<int>
  {
    SortedUnique(Ports(Skeleton(state, ifRows, n)), IntLess)
  }

  /** The triple loop of the consolidation completes. */
  predicate Consolidates(state: seq<StateRow>, ifRows: seq<IfRow>, d: DcrData)
  {
    LoopSucceeds(|UniquePorts(state, ifRows, |d.samples|)|, UniqueSigRefs(state), UniqueCals(state), state, d,
                 |ifRows| * NumPhases(state))
  }

  /**
   * The consolidated rows: the skeleton's rows in order, each keeping its IF
   * and STATE columns, with DATA as the triple loop wrote it.
   */
  predicate ConsolidatedRows(rows: seq<DcrRow>, state: seq<StateRow>, ifRows: seq<IfRow>, d: DcrData)
    requires Shaped(d)
  {
    var sk := Skeleton(state, ifRows, |d.samples|);
    |rows| == |sk| &&
    (forall k :: 0 <= k < |sk| ==> rows[k] == sk[k].(data := rows[k].data)) &&
    Written(DataColumn(rows), |UniquePorts(state, ifRows, |d.samples|)|, UniqueSigRefs(state), UniqueCals(state), state, d)
  }

  /** The consolidated table: those rows, RECEIVER from the first IF row, and no FACTOR column yet. */
  predicate Consolidated(t: DcrTable, state: seq<StateRow>, ifRows: seq<IfRow>, d: DcrData, trackBeam: int)
    requires Shaped(d)
  {
    |ifRows| > 0 && t.receiver == ifRows[0].receiver && t.trackBeam == trackBeam && !t.hasFactor &&
    ConsolidatedRows(t.rows, state, ifRows, d)
  }

  /** The skeleton's rows with the DATA column replaced. */
  function WithData(sk: seq<DcrRow>, col: seq<seq<real>>): (r: seq<DcrRow>)
    requires |col| == |sk|
    ensures |r| == |sk| && DataColumn(r) == col
    ensures forall k :: 0 <= k < |sk| ==> r[k] == sk[k].(data := r[k].data)
  {
    var r := seq(|sk|, k requires 0 <= k < |sk| => sk[k].(data := col[k]));
    assert DataColumn(r) == col;
    r
  }

  /** The skeleton with the column the triple loop wrote is the consolidated rows. */
  lemma WithDataConsolidated(state: seq<StateRow>, ifRows: seq<IfRow>, d: DcrData, col: seq<seq<real>>)
    requires Shaped(d) && |col| == |Skeleton(state, ifRows, |d.samples|)|
    requires Written(col, |UniquePorts(state, ifRows, |d.samples|)|, UniqueSigRefs(state), UniqueCals(state), state, d)
    ensures ConsolidatedRows(WithData(Skeleton(state, ifRows, |d.samples|), col), state, ifRows, d)
  {
  }

  /**
   * DcrTable._consolidateFitsData on the STATE rows, the DCR rows of the IF
   * table and the DATA array, which the FITS reading supplies.
   */
  method ConsolidateFitsData(state: seq<StateRow>, ifRows: seq<IfRow>, d: DcrData, trackBeam: int)
    returns (r: Result<DcrTable>)
    requires Shaped(d)
    ensures !ValidStates(CalValues(state)) ==> r == Err(ValueError(CalMsg()))
    ensures ValidStates(CalValues(state)) && !ValidStates(SigRefValues(state)) ==> r == Err(ValueError(SigRefMsg()))
    ensures (ValidStates(CalValues(state)) && ValidStates(SigRefValues(state)) &&
             |SortedUnique(Receivers(ifRows), StrLess)| != 1) ==> r == Err(ValueError(ReceiverMsg()))
    ensures Checked(state, ifRows) ==> (r.Ok? <==> Consolidates(state, ifRows, d))
    ensures Checked(state, ifRows) && r.Err? ==> r.error == IndexError || r.error == ValueError(PhaseMsg())
    ensures r.Ok? ==> Checked(state, ifRows) && Consolidated(r.value, state, ifRows, d, trackBeam)
  {
    if !ValidStates(CalValues(state)) {
      return Err(ValueError(CalMsg()));
    }
    if !ValidStates(SigRefValues(state)) {
      return Err(ValueError(SigRefMsg()));
    }
    if |SortedUnique(Receivers(ifRows), StrLess)| != 1 {
      return Err(ValueError(ReceiverMsg()));
    }
    r := ConsolidateChecked(state, ifRows, d, trackBeam);
  }

  /** The layout and the triple loop, once the STATE and receiver checks have passed. */
  method ConsolidateChecked(state: seq<StateRow>, ifRows: seq<IfRow>, d: DcrData, trackBeam: int)
    returns (r: Result<DcrTable>)
    requires Shaped(d) && Checked(state, ifRows)
    ensures r.Ok? <==> Consolidates(state, ifRows, d)
    ensures r.Err? ==> r.error == IndexError || r.error == ValueError(PhaseMsg())
    ensures r.Ok? ==> Consolidated(r.value, state, ifRows, d, trackBeam)
  {
    CheckedNonEmpty(state, ifRows);
    var receiver := ifRows[0].receiver;
    var skeleton := Skeleton(state, ifRows, |d.samples|);
    var ports := SortedUnique(Ports(skeleton), IntLess);
    var col := WritePhaseData(|skeleton|, |ports|, UniqueSigRefs(state), UniqueCals(state), state, d);
    if col.Err? {
      return Err(col.error);
    }
    WithDataConsolidated(state, ifRows, d, col.value);
    return Ok(DcrTable(WithData(skeleton, col.value), receiver, trackBeam, false));
  }

  /** vstack of n copies puts row k of the result at row k mod |s| of the original. */
  lemma {:induction false} RepeatAt<T>(s: seq<T>, n: nat, k: nat)
    requires k < |s| * n
    ensures |s| > 0 && Repeat(s, n)[k] == s[k % |s|]
    decreases n
  {
    var m := |s|;
    if m == 0 || n == 0 {
      assert false;
    } else {
      MulStep(m, n);
      if k >= m {
        RepeatTail(s, n, k);
      } else {
        assert Repeat(s, n) == s + Repeat(s, n - 1);
        assert k % m == k;
      }
    }
  }

  /** Past the first copy, row k is row k - |s| of the remaining copies. */
  lemma {:induction false} RepeatTail<T>(s: seq<T>, n: nat, k: nat)
    requires n > 0 && 0 < |s| <= k < |s| * n && |s| * n == |s| + |s| * (n - 1)
    ensures Repeat(s, n)[k] == s[k % |s|]
    decreases n, 0
  {
    var rest := Repeat(s, n - 1);
    assert Repeat(s, n) == s + rest;
    RepeatAt(s, n - 1, k - |s|);
    ModShift(k - |s|, |s|);
  }

  lemma MulStep(m: nat, n: nat)
    requires n > 0
    ensures m * n == m + m * (n - 1)
  {
  }

  lemma ModShift(a: nat, m: nat)
    requires m > 0
    ensures (a + m) % m == a % m
  {
    var q, r := a / m, a % m;
    assert a == q * m + r;
    assert a + m == (q + 1) * m + r;
    assert a + m == ((a + m) / m) * m + (a + m) % m;
    MulAddUnique((a + m) / m, (a + m) % m, q + 1, r, m);
  }

  /**
   * The skeleton has |IF rows| × P rows (P the number of distinct phases),
   * its IF columns are the replicated IF rows sorted by PORT, and row k
   * carries the SIGREF and CAL of STATE row k mod |STATE|.
   */
  lemma SkeletonLayout(state: seq<StateRow>, ifRows: seq<IfRow>, n: nat)
    ensures var sk := Skeleton(state, ifRows, n);
      |sk| == |ifRows| * NumPhases(state) &&
      (forall i, j :: 0 <= i < j < |sk| ==> sk[i].port <= sk[j].port) &&
      (forall k :: 0 <= k < |sk| ==>
        (0 < |state| && sk[k].sigref == state[k % |state|].sigref &&
         sk[k].cal == state[k % |state|].cal && sk[k].data == Zeros(n)))
  {
    var sk := Skeleton(state, ifRows, n);
    var sorted := SortByPort(Repeat(ifRows, NumPhases(state)));
    SortByPortProperties(Repeat(ifRows, NumPhases(state)));
    SortedUniqueLength(state, StateLess);
    MulMonotone(|ifRows|, NumPhases(state), |state|);
    forall k | 0 <= k < |sk|
      ensures 0 < |state| && sk[k].sigref == state[k % |state|].sigref && sk[k].cal == state[k % |state|].cal
    {
      assert |ifRows| * |state| == |state| * |ifRows|;
      RepeatAt(state, |ifRows|, k);
    }
  }

  /** The IF columns of the skeleton are the IF rows, each exactly P times. */
  lemma SkeletonRows(state: seq<StateRow>, ifRows: seq<IfRow>, n: nat)
    ensures var sorted := SortByPort(Repeat(ifRows, NumPhases(state)));
      multiset(sorted) == multiset(Repeat(ifRows, NumPhases(state))) &&
      forall k :: 0 <= k < |sorted| ==>
        (Skeleton(state, ifRows, n)[k].feed == sorted[k].feed &&
         Skeleton(state, ifRows, n)[k].port == sorted[k].port &&
         Skeleton(state, ifRows, n)[k].polarize == sorted[k].polarize)
  {
    SortByPortProperties(Repeat(ifRows, NumPhases(state)));
  }

  // ---- selections ----

  /** self[mask]: the rows that pass, in order. */
  function Filter(rows: seq<DcrRow>, keep: DcrRow -> bool): (r: seq<DcrRow>)
    ensures |r| <= |rows|
    ensures forall x :: x in r <==> x in rows && keep(x)
  {
    if |rows| == 0 then []
    else
      var rest := Filter(rows[1..], keep);
      assert forall x :: x in rows <==> x == rows[0] || x in rows[1..];
      if keep(rows[0]) then [rows[0]] + rest else rest
  }

  /** Selection keeps exactly the passing rows, with their multiplicities. */
  lemma {:induction false} FilterCounts(rows: seq<DcrRow>, keep: DcrRow -> bool)
    ensures forall x :: multiset(Filter(rows, keep))[x] == if keep(x) then multiset(rows)[x] else 0
  {
    if |rows| > 0 {
      FilterCounts(rows[1..], keep);
      assert rows == [rows[0]] + rows[1..];
    }
  }

  /** Selection keeps the order of the rows: it distributes over concatenation. */
  lemma {:induction false} FilterAppend(a: seq<DcrRow>, b: seq<DcrRow>, keep: DcrRow -> bool)
    ensures Filter(a + b, keep) == Filter(a, keep) + Filter(b, keep)
  {
    if |a| > 0 {
      assert (a + b)[1..] == a[1..] + b;
      FilterAppend(a[1..], b, keep);
    } else {
      assert a + b == b;
    }
  }

  /** getDataForPhase: SIGREF 0 for the signal beam, 1 for the reference beam, and the given CAL. */
  function GetDataForPhase(t: DcrTable, signal: bool, cal: int): DcrTable
  {
    var sigref := if signal then 0 else 1;
    t.(rows := Filter(t.rows, (x: DcrRow) => x.sigref == sigref && x.cal == cal))
  }

  lemma GetDataForPhaseMeaning(t: DcrTable, signal: bool, cal: int)
    ensures forall x :: x in GetDataForPhase(t, signal, cal).rows <==>
      x in t.rows && x.sigref == (if signal then 0 else 1) && x.cal == cal
    ensures forall x :: (multiset(GetDataForPhase(t, signal, cal).rows)[x] ==
      if x.sigref == (if signal then 0 else 1) && x.cal == cal then multiset(t.rows)[x] else 0)
  {
    var sigref := if signal then 0 else 1;
    FilterCounts(t.rows, (x: DcrRow) => x.sigref == sigref && x.cal == cal);
  }

  function Feeds(rows: seq<DcrRow>): (r: seq<int>)
    ensures |r| == |rows| && forall i :: 0 <= i < |r| ==> r[i] == rows[i].feed
  {
    seq(|rows|, i requires 0 <= i < |rows| => rows[i].feed)
  }

  /** getUniqueFeeds */
  function UniqueFeeds(t: DcrTable): seq<int>
  {
    SortedUnique(Feeds(t.rows), IntLess)
  }

  lemma UniqueFeedsMeaning(t: DcrTable)
    ensures StrictlySorted(UniqueFeeds(t), IntLess)
    ensures forall f :: f in UniqueFeeds(t) <==> exists i :: 0 <= i < |t.rows| && t.rows[i].feed == f
  {
    BasicOrders();
    SortedUniqueProperties(Feeds(t.rows), IntLess);
  }

  /** getSigAndRefFeeds: the tracking feed and the reference feed among the two smallest feeds. */
  function GetSigAndRefFeeds(t: DcrTable): Result<(int, int)>
  {
    var feeds := UniqueFeeds(t);
    if |feeds| < 2 then Err(ValueError("need two feeds"))
    else if t.trackBeam == feeds[0] then Ok((feeds[0], feeds[1]))
    else Ok((feeds[1], feeds[0]))
  }

  /**
   * Fewer than two feeds raise ValueError; otherwise sig and ref are the
   * two smallest feeds, and sig is the smallest exactly when the track beam is.
   */
  lemma SigAndRefFeedsMeaning(t: DcrTable)
    ensures GetSigAndRefFeeds(t).Err? <==> |UniqueFeeds(t)| < 2
    ensures GetSigAndRefFeeds(t).Ok? ==>
      var (sig, ref) := GetSigAndRefFeeds(t).value;
      var feeds := UniqueFeeds(t);
      sig != ref && {sig, ref} == {feeds[0], feeds[1]} && (sig == feeds[0] <==> t.trackBeam == feeds[0]) &&
      sig in Feeds(t.rows) && ref in Feeds(t.rows)
  {
    UniqueFeedsMeaning(t);
    BasicOrders();
    SortedUniqueProperties(Feeds(t.rows), IntLess);
    if |UniqueFeeds(t)| >= 2 {
      var feeds := UniqueFeeds(t);
      assert feeds[0] < feeds[1];
      assert feeds[0] in feeds && feeds[1] in feeds;
    }
  }

  function CalDataMsg(): string { "expected 1 CAL row" }

  /** _getCalData: the DATA of the only row with the given CAL. */
  function GetCalData(t: DcrTable, calState: int): (r: Result<seq<real>>)
    ensures r.Ok? <==> |Filter(t.rows, (x: DcrRow) => x.cal == calState)| == 1
    ensures r.Err? ==> r.error == ValueError(CalDataMsg())
    ensures r.Ok? ==> exists x :: x in t.rows && x.cal == calState && x.data == r.value
  {
    var rows := Filter(t.rows, (x: DcrRow) => x.cal == calState);
    if |rows| != 1 then Err(ValueError(CalDataMsg()))
    else
      assert rows[0] in rows;
      Ok(rows[0].data)
  }

  function GetCalOnData(t: DcrTable): Result<seq<real>>
  {
    GetCalData(t, 1)
  }

  function GetCalOffData(t: DcrTable): Result<seq<real>>
  {
    GetCalData(t, 0)
  }

  /** With exactly one row per CAL state, cal-on and cal-off data are those rows' DATA. */
  lemma CalOnOffData(t: DcrTable, on: DcrRow, off: DcrRow)
    requires Filter(t.rows, (x: DcrRow) => x.cal == 1) == [on] && Filter(t.rows, (x: DcrRow) => x.cal == 0) == [off]
    ensures GetCalOnData(t) == Ok(on.data) && GetCalOffData(t) == Ok(off.data)
  {
  }

  function Factors(rows: seq<DcrRow>): (r: seq<real>)
    ensures |r| == |rows| && forall i :: 0 <= i < |r| ==> r[i] == rows[i].factor
  {
    seq(|rows|, i requires 0 <= i < |rows| => rows[i].factor)
  }

  /** getFactor: the single FACTOR value of the table. */
  function GetFactor(t: DcrTable): Result<real>
  {
    if !t.hasFactor then Err(ValueError("no FACTOR column"))
    else if |SortedUnique(Factors(t.rows), RealLess)| != 1 then
      Err(ValueError("many FACTOR values"))
    else if |t.rows| == 0 then Err(IndexError)
    else Ok(t.rows[0].factor)
  }

  /**
   * getFactor succeeds exactly when the FACTOR column exists, the table has a
   * row, and all rows share one FACTOR, which it returns.
   */
  lemma GetFactorMeaning(t: DcrTable)
    ensures GetFactor(t).Ok? <==> t.hasFactor && |t.rows| > 0 && forall i :: 0 <= i < |t.rows| ==> t.rows[i].factor == t.rows[0].factor
    ensures GetFactor(t).Ok? ==> GetFactor(t).value == t.rows[0].factor
    ensures GetFactor(t).Err? ==> GetFactor(t).error.ValueError?
  {
    var u := SortedUnique(Factors(t.rows), RealLess);
    BasicOrders();
    SortedUniqueProperties(Factors(t.rows), RealLess);
    SortedUniqueLength(Factors(t.rows), RealLess);
    if |t.rows| > 0 {
      assert t.rows[0].factor in Factors(t.rows);
      if forall i :: 0 <= i < |t.rows| ==> t.rows[i].factor == t.rows[0].factor {
        assert forall y :: y in u ==> y == t.rows[0].factor;
        StrictlySortedDetermined(u, [t.rows[0].factor], RealLess);
      }
      if |u| == 1 {
        forall i | 0 <= i < |t.rows| ensures t.rows[i].factor == t.rows[0].factor {
          assert t.rows[i].factor in Factors(t.rows);
        }
      }
    }
  }

  /** getTrackFeedData: the rows of the track beam's feed. */
  function GetTrackFeedData(t: DcrTable): (r: DcrTable)
    ensures forall x :: x in r.rows <==> x in t.rows && x.feed == t.trackBeam
    ensures r.trackBeam == t.trackBeam && r.hasFactor == t.hasFactor
  {
    t.(rows := Filter(t.rows, (x: DcrRow) => x.feed == t.trackBeam))
  }

  // ---- phase labels ----

  /** The position of a value in a list, or |s| when it is absent. */
  function PositionOf(s: seq<int>, x: int): (r: nat)
    ensures r <= |s| && (r < |s| <==> x in s)
    ensures r < |s| ==> s[r] == x
  {
    if |s| == 0 then 0
    else if s[0] == x then 0
    else
      var r := PositionOf(s[1..], x);
      assert forall i :: 1 <= i < |s| ==> s[i] == s[1..][i - 1];
      r + 1
  }

  /** The phase a row's own SIGREF and CAL name. */
  function LabelOf(row: DcrRow): StateRow
  {
    StateRow(row.sigref, row.cal)
  }

  /** A row's port and its labelled phase name one STATE row and lie inside DATA. */
  predicate Resolvable(row: DcrRow, ports: seq<int>, state: seq<StateRow>, d: DcrData)
  {
    Count(state, LabelOf(row)) == 1 && PositionOf(ports, row.port) < d.ports && FirstMatch(state, LabelOf(row)) < d.phases
  }

  /** A row's DATA is the slice at its own port's position and at the phase its SIGREF and CAL name. */
  predicate RowLabelled(row: DcrRow, ports: seq<int>, state: seq<StateRow>, d: DcrData)
    requires Shaped(d)
  {
    var p := PositionOf(ports, row.port);
    var phase := FirstMatch(state, LabelOf(row));
    p < d.ports && phase < d.phases && row.data == Slice(d, p, phase)
  }

  /**
   * The data layout corrected: each skeleton row takes the DATA slice of its
   * own port and labelled phase.  The first row that cannot be resolved
   * fails, with ValueError for an ambiguous phase and IndexError otherwise.
   */
  function LabelData(sk: seq<DcrRow>, ports: seq<int>, state: seq<StateRow>, d: DcrData): (r: Result<seq<DcrRow>>)
    requires Shaped(d)
    ensures r.Ok? <==> forall k :: 0 <= k < |sk| ==> Resolvable(sk[k], ports, state, d)
    ensures r.Err? ==> r.error == IndexError || r.error == ValueError(PhaseMsg())
    ensures r.Ok? ==> |r.value| == |sk|
    ensures r.Ok? ==>
      forall k :: 0 <= k < |sk| ==> r.value[k] == sk[k].(data := r.value[k].data) && RowLabelled(r.value[k], ports, state, d)
  {
    if |sk| == 0 then Ok([])
    else
      var row := sk[0];
      if Count(state, LabelOf(row)) != 1 then Err(ValueError(PhaseMsg()))
      else if PositionOf(ports, row.port) >= d.ports || FirstMatch(state, LabelOf(row)) >= d.phases then Err(IndexError)
      else
        assert forall k :: 1 <= k < |sk| ==> sk[k] == sk[1..][k - 1];
        var rest :- LabelData(sk[1..], ports, state, d);
        var first := row.(data := Slice(d, PositionOf(ports, row.port), FirstMatch(state, LabelOf(row))));
        assert forall k :: 1 <= k < |sk| ==> ([first] + rest)[k] == rest[k - 1];
        Ok([first] + rest)
  }

  /**
   * _consolidateFitsData with the corrected layout: the same checks, then
   * every skeleton row labelled with its own data.
   */
  function ConsolidateLabelled(state: seq<StateRow>, ifRows: seq<IfRow>, d: DcrData, trackBeam: int): Result<DcrTable>
    requires Shaped(d)
  {
    if !ValidStates(CalValues(state)) then Err(ValueError(CalMsg()))
    else if !ValidStates(SigRefValues(state)) then Err(ValueError(SigRefMsg()))
    else if |SortedUnique(Receivers(ifRows), StrLess)| != 1 then Err(ValueError(ReceiverMsg()))
    else
      CheckedNonEmpty(state, ifRows);
      var sk := Skeleton(state, ifRows, |d.samples|);
      var rows :- LabelData(sk, UniquePorts(state, ifRows, |d.samples|), state, d);
      Ok(DcrTable(rows, ifRows[0].receiver, trackBeam, false))
  }

  /**
   * The corrected consolidation rejects what the checks reject, and what it
   * returns has the skeleton's rows, each holding the DATA its PORT, SIGREF
   * and CAL name.
   */
  lemma ConsolidateLabelledMeaning(state: seq<StateRow>, ifRows: seq<IfRow>, d: DcrData, trackBeam: int)
    requires Shaped(d)
    ensures var r := ConsolidateLabelled(state, ifRows, d, trackBeam);
      var sk := Skeleton(state, ifRows, |d.samples|);
      var ports := UniquePorts(state, ifRows, |d.samples|);
      (r.Ok? <==> Checked(state, ifRows) && forall k :: 0 <= k < |sk| ==> Resolvable(sk[k], ports, state, d)) &&
      (r.Err? ==> r.error.ValueError? || r.error == IndexError) &&
      (r.Ok? ==>
        |ifRows| > 0 && |r.value.rows| == |sk| && r.value.receiver == ifRows[0].receiver &&
        r.value.trackBeam == trackBeam && !r.value.hasFactor &&
        forall k :: 0 <= k < |sk| ==>
          r.value.rows[k] == sk[k].(data := r.value.rows[k].data) && RowLabelled(r.value.rows[k], ports, state, d))
  {
  }

  /** STATE listing cal-on before cal-off, one IF row at port 0, one integration. */
  function SwappedState(): seq<StateRow> { [StateRow(0, 1), StateRow(0, 0)] }

  function OneIfRow(): seq<IfRow> { [IfRow(1, "R", "X", 1.0, 1.0, 0, 0, "Rcvr1_2")] }

  /** Phase 0 (cal on) counted 5, phase 1 (cal off) counted 7. */
  function TwoPhases(): DcrData { DcrData(1, 2, [[[5.0, 7.0]]]) }

  lemma SwappedStateChecked()
    ensures Checked(SwappedState(), OneIfRow())
    ensures UniqueSigRefs(SwappedState()) == [0] && UniqueCals(SwappedState()) == [0, 1]
    ensures NumPhases(SwappedState()) == 2
  {
    var st := SwappedState();
    BasicOrders();
    assert CalValues(st) == [1, 0] && SigRefValues(st) == [0, 0];
    SortedUniqueProperties(CalValues(st), IntLess);
    SortedUniqueProperties(SigRefValues(st), IntLess);
    StrictlySortedDetermined(UniqueCals(st), [0, 1], IntLess);
    StrictlySortedDetermined(UniqueSigRefs(st), [0], IntLess);
    StrLessIsStrictTotal();
    SortedUniqueProperties(Receivers(OneIfRow()), StrLess);
    assert Receivers(OneIfRow()) == ["Rcvr1_2"];
    StrictlySortedDetermined(SortedUnique(Receivers(OneIfRow()), StrLess), ["Rcvr1_2"], StrLess);
    StateLessIsStrictTotal();
    SortedUniqueProperties(st, StateLess);
    var u := SortedUnique(st, StateLess);
    assert StateLess(StateRow(0, 0), StateRow(0, 1));
    StrictlySortedDetermined(u, [StateRow(0, 0), StateRow(0, 1)], StateLess);
  }

  /** The skeleton of the example: two rows at port 0, labelled as STATE lists them. */
  lemma SwappedSkeleton()
    ensures var sk := Skeleton(SwappedState(), OneIfRow(), 1);
      |sk| == 2 && LabelOf(sk[0]) == StateRow(0, 1) && LabelOf(sk[1]) == StateRow(0, 0) &&
      sk[0].port == 0 && sk[1].port == 0 && UniquePorts(SwappedState(), OneIfRow(), 1) == [0]
  {
    SwappedStateChecked();
    var sk := Skeleton(SwappedState(), OneIfRow(), 1);
    SkeletonLayout(SwappedState(), OneIfRow(), 1);
    SkeletonRows(SwappedState(), OneIfRow(), 1);
    var rep := Repeat(OneIfRow(), 2);
    assert rep == OneIfRow() + OneIfRow();
    var sorted := SortByPort(rep);
    assert sorted[0] in multiset(rep) && sorted[1] in multiset(rep);
    assert Ports(sk) == [0, 0];
    BasicOrders();
    SortedUniqueProperties(Ports(sk), IntLess);
    StrictlySortedDetermined(UniquePorts(SwappedState(), OneIfRow(), 1), [0], IntLess);
  }

  lemma TwoPhasesSlices()
    ensures Shaped(TwoPhases()) && Slice(TwoPhases(), 0, 0) == [5.0] && Slice(TwoPhases(), 0, 1) == [7.0]
  {
  }

  lemma SwappedPhases()
    ensures Count(SwappedState(), StateRow(0, 0)) == 1 && Count(SwappedState(), StateRow(0, 1)) == 1
    ensures FirstMatch(SwappedState(), StateRow(0, 0)) == 1 && FirstMatch(SwappedState(), StateRow(0, 1)) == 0
  {
    var st := SwappedState();
    assert st[1..] == [StateRow(0, 0)];
  }

  /** The example passes every check and the triple loop runs to the end. */
  lemma SwappedConsolidates()
    ensures Checked(SwappedState(), OneIfRow()) && Consolidates(SwappedState(), OneIfRow(), TwoPhases())
  {
    SwappedStateChecked();
    SwappedSkeleton();
    SwappedPhases();
    TwoPhasesSlices();
  }

  /**
   * As written, the consolidated row labelled CAL = 1 receives the cal-off
   * counts: the loop writes the phases in sorted (SIGREF, CAL) order, while
   * the rows carry the STATE rows in file order.
   */
  lemma PhaseLabelMismatch(t: DcrTable)
    requires Consolidated(t, SwappedState(), OneIfRow(), TwoPhases(), 1)
    ensures t.rows[0].cal == 1 && t.rows[0].data == [7.0]
    ensures Slice(TwoPhases(), 0, FirstMatch(SwappedState(), StateRow(0, 1))) == [5.0]
    ensures !RowLabelled(t.rows[0], [0], SwappedState(), TwoPhases())
  {
    var st, d := SwappedState(), TwoPhases();
    SwappedSkeleton();
    SwappedStateChecked();
    SwappedPhases();
    TwoPhasesSlices();
    ConsolidatedFirst(t, st, OneIfRow(), d, 1);
  }

  /** Row 0 of a consolidated table: the skeleton's row 0 with the slice of port 0 and the first phase pair. */
  lemma ConsolidatedFirst(t: DcrTable, state: seq<StateRow>, ifRows: seq<IfRow>, d: DcrData, trackBeam: int)
    requires Shaped(d) && Consolidated(t, state, ifRows, d, trackBeam)
    requires |UniquePorts(state, ifRows, |d.samples|)| > 0 && |UniqueSigRefs(state)| > 0 && |UniqueCals(state)| > 0
    ensures var sk := Skeleton(state, ifRows, |d.samples|);
      var x := StateRow(UniqueSigRefs(state)[0], UniqueCals(state)[0]);
      |sk| > 0 && LabelOf(t.rows[0]) == LabelOf(sk[0]) && 0 < d.ports && FirstMatch(state, x) < d.phases &&
      t.rows[0].data == Slice(d, 0, FirstMatch(state, x))
  {
    var col := DataColumn(t.rows);
    WrittenAt(col, |UniquePorts(state, ifRows, |d.samples|)|, UniqueSigRefs(state), UniqueCals(state), state, d, 0, 0, 0);
    assert Index(0, 0, 0, |UniqueSigRefs(state)|, |UniqueCals(state)|) == 0;
  }

  /** One instance of what the triple loop wrote. */
  lemma WrittenAt(col: seq<seq<real>>, nP: nat, us: seq<int>, uc: seq<int>, state: seq<StateRow>, d: DcrData,
                  p: nat, s: nat, c: nat)
    requires Shaped(d) && Written(col, nP, us, uc, state, d)
    requires p < nP && s < |us| && c < |uc|
    ensures Index(p, s, c, |us|, |uc|) < |col| && p < d.ports && PhaseResolved(state, d, StateRow(us[s], uc[c]))
    ensures col[Index(p, s, c, |us|, |uc|)] == Slice(d, p, FirstMatch(state, StateRow(us[s], uc[c])))
  {
    IndexBoundedInjective(p, s, c, p, s, c, nP, |us|, |uc|);
  }

  /** Corrected, the same input gives the CAL = 1 row the cal-on counts. */
  lemma LabelledSwapped(state: seq<StateRow>, ifRows: seq<IfRow>, d: DcrData)
    requires state == SwappedState() && ifRows == OneIfRow() && d == TwoPhases() && Shaped(d)
    ensures var r := ConsolidateLabelled(state, ifRows, d, 1);
      r.Ok? && |r.value.rows| == 2 && r.value.rows[0].cal == 1 && r.value.rows[0].data == [5.0] &&
      r.value.rows[1].cal == 0 && r.value.rows[1].data == [7.0]
  {
    SwappedResolvable();
    ConsolidateLabelledMeaning(state, ifRows, d, 1);
    SwappedSkeleton();
    var rows := ConsolidateLabelled(state, ifRows, d, 1).value.rows;
    var sk := Skeleton(state, ifRows, 1);
    assert rows[0] == sk[0].(data := rows[0].data) && rows[1] == sk[1].(data := rows[1].data);
    SwappedRowData(rows[0], StateRow(0, 1), [5.0]);
    SwappedRowData(rows[1], StateRow(0, 0), [7.0]);
  }

  /** A row at port 0 of the example, labelled with a phase, holds that phase's counts. */
  lemma SwappedRowData(row: DcrRow, phase: StateRow, counts: seq<real>)
    requires row.port == 0 && LabelOf(row) == phase
    requires (phase == StateRow(0, 1) && counts == [5.0]) || (phase == StateRow(0, 0) && counts == [7.0])
    requires Shaped(TwoPhases()) && RowLabelled(row, [0], SwappedState(), TwoPhases())
    ensures row.data == counts
  {
    SwappedPhases();
    TwoPhasesSlices();
    assert PositionOf([0], 0) == 0;
  }

  lemma SwappedResolvable()
    ensures Checked(SwappedState(), OneIfRow())
    ensures var sk := Skeleton(SwappedState(), OneIfRow(), 1);
      |sk| == 2 && forall k :: 0 <= k < |sk| ==> Resolvable(sk[k], [0], SwappedState(), TwoPhases())
  {
    SwappedSkeleton();
    SwappedStateChecked();
    SwappedPhases();
    var sk := Skeleton(SwappedState(), OneIfRow(), 1);
    assert PositionOf([0], 0) == 0;
    assert Resolvable(sk[0], [0], SwappedState(), TwoPhases()) && Resolvable(sk[1], [0], SwappedState(), TwoPhases());
  }
}
