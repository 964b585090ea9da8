/**
 * The corrections ReadBRES32Data applies to what it has decoded: the
 * ManualGrade repack of old files, the first and last slices of the
 * defects, the count of solutions stored, the grading intervals of old
 * solutions, and the raw width old solutions take from their width rule.
 */
module Corrections {
  import opened Wrappers
  import opened Bytes
  import opened Reader
  import opened BresDefs
  import opened Revision
  import opened Defects
  import opened Header
  import opened Board
  import opened BoardRecord
  import opened Solution
  import opened Rules

  // ---------------------------------------------------------------------
  // ManualGrade repack (files before revision 56).
  // ---------------------------------------------------------------------

  /** JavaScript's `%`, which truncates toward zero: the remainder takes the sign of `a`. */
  function JsRem(a: int, b: int): (m: int)
    requires b > 0
    ensures -b < m < b
    ensures a >= 0 ==> m == a % b
    ensures a < 0 ==> m <= 0
  {
    if a >= 0 then a % b else -((-a) % b)
  }

  /**
   * `Mode*100000 + ManuGrade` with `Mode = Math.floor(MG/1000)` and
   * `ManuGrade = MG % 1000`: the mode moves from the thousands to the
   * hundred-thousands. Dafny's `/` by a positive divisor is the floor.
   */
  function RepackManualGrade(mg: int): int
  {
    (mg / 1000) * 100000 + JsRem(mg, 1000)
  }

  /** For a grade that is not negative, the repacked value holds the same mode and the same grade, only further apart. */
  lemma RepackKeepsModeAndGrade(mg: int)
    requires mg >= 0
    ensures RepackManualGrade(mg) / 100000 == mg / 1000
    ensures RepackManualGrade(mg) % 100000 == mg % 1000
  {
    var q, m := mg / 1000, mg % 1000;
    assert 0 <= m < 1000;
    assert RepackManualGrade(mg) == q * 100000 + m;
  }

  /** The header with its ManualGrade repacked. */
  function RepackedHeader(h: MainHeader): MainHeader
  {
    h.(front := h.front.(cuts := h.front.cuts.(manualGrade := RepackManualGrade(h.front.cuts.manualGrade))))
  }

  /** Below revision 56 the board's header has its ManualGrade repacked; a missing board is left as it is. */
  function RepackBoard(b: OptBoardRec, rev: int): (c: OptBoardRec)
    ensures c.NoBoard? == b.NoBoard?
    ensures c.OptBoardRec? ==> c.front == b.front && c.back.moisture == b.back.moisture
    ensures c.OptBoardRec? && rev >= 56 ==> c == b
  {
    if rev < 56 && b.OptBoardRec? then b.(back := b.back.(header := RepackedHeader(b.back.header))) else b
  }

  /** Only the ManualGrade of the header changes. */
  lemma RepackOnlyManualGrade(b: OptBoardRec, rev: int)
    requires b.OptBoardRec? && rev < 56
    ensures RepackBoard(b, rev).back.header.front.cuts.manualGrade == RepackManualGrade(b.back.header.front.cuts.manualGrade)
    ensures RepackBoard(b, rev).back.header.front.cuts.rootCut == b.back.header.front.cuts.rootCut
    ensures RepackBoard(b, rev).back.header.front.ident == b.back.header.front.ident
    ensures RepackBoard(b, rev).back.header.back == b.back.header.back
  {
  }

  // ---------------------------------------------------------------------
  // First and last defect slices (files before revision 82).
  // ---------------------------------------------------------------------

  /** The x-coordinates of the board's slices, slice k of the source at index k - 1. */
  function GeomXs(g: BoardGeom): (xs: seq<int>)
    ensures |xs| == |g.slices|
    ensures forall k :: 0 <= k < |xs| ==> xs[k] == g.slices[k].x
  {
    seq(|g.slices|, k requires 0 <= k < |g.slices| => g.slices[k].x)
  }

  /** What SetFirstAndLastDefectSlices makes of one side's informations. */
  function DefectSlicesSet(ext: seq<ExtDefectInfo>, defects: seq<Defect>, xs: seq<int>): (res: seq<ExtDefectInfo>)
    requires |defects| >= |ext|
    ensures |res| == |ext|
  {
    seq(|ext|, i requires 0 <= i < |ext| =>
      ext[i].(firstSlc := SliceNum(xs, defects[i].x1, 1),
              lastSlc := SliceNum(xs, defects[i].x2, SliceNum(xs, defects[i].x1, 1))))
  }

  /** Every side has a defect for each of its informations (else `defectA[i].X1` reads undefined). */
  predicate SidesCover(s: FourSides, e: ExtInfos)
  {
    |s.u.defects| >= |e.u| && |s.d.defects| >= |e.d| && |s.f.defects| >= |e.f| && |s.r.defects| >= |e.r|
  }

  /**
   * The four calls of SetFirstAndLastDefectSlices on the up, down, front
   * and rear sides. A missing board or missing informations make the
   * source read a property of undefined.
   */
  function BoardSlicesFixed(b: OptBoardRec): Result<OptBoardRec>
  {
    if b.NoBoard? || b.front.defects.ext.None? then Failure(UndefinedAccess)
    else
      var s, e, xs := b.front.defects.sides, b.front.defects.ext.value, GeomXs(b.front.geom);
      if !SidesCover(s, e) then Failure(UndefinedAccess)
      else
        var e2 := ExtInfos(DefectSlicesSet(e.u, s.u.defects, xs), DefectSlicesSet(e.d, s.d.defects, xs),
                           DefectSlicesSet(e.f, s.f.defects, xs), DefectSlicesSet(e.r, s.r.defects, xs));
        Success(b.(front := b.front.(defects := b.front.defects.(ext := Some(e2)))))
  }

  method FixSide(ext: seq<ExtDefectInfo>, defects: seq<Defect>, xs: seq<int>) returns (res: seq<ExtDefectInfo>)
    requires |defects| >= |ext|
    ensures res == DefectSlicesSet(ext, defects, xs)
  {
    res := SetFirstAndLastDefectSlices(ext, defects, xs);
  }

  /** The correction as the source runs it, one side after the other. */
  method FixDefectSlices(b: OptBoardRec) returns (res: Result<OptBoardRec>)
    ensures res == BoardSlicesFixed(b)
  {
    if b.NoBoard? || b.front.defects.ext.None? {
      return Failure(UndefinedAccess);
    }
    var s, e := b.front.defects.sides, b.front.defects.ext.value;
    if !SidesCover(s, e) {
      return Failure(UndefinedAccess);
    }
    var xs := GeomXs(b.front.geom);
    var u := FixSide(e.u, s.u.defects, xs);
    var d := FixSide(e.d, s.d.defects, xs);
    var f := FixSide(e.f, s.f.defects, xs);
    var r := FixSide(e.r, s.r.defects, xs);
    res := Success(b.(front := b.front.(defects := b.front.defects.(ext := Some(ExtInfos(u, d, f, r))))));
  }

  /** Every information starts on slice 1 or later and ends no earlier than it starts. */
  predicate SlicesOrdered(ext: seq<ExtDefectInfo>)
  {
    forall i :: 0 <= i < |ext| ==> 1 <= ext[i].firstSlc <= ext[i].lastSlc
  }

  lemma SideSlicesOrdered(ext: seq<ExtDefectInfo>, defects: seq<Defect>, xs: seq<int>)
    requires |defects| >= |ext|
    ensures SlicesOrdered(DefectSlicesSet(ext, defects, xs))
  {
    forall i | 0 <= i < |ext|
      ensures 1 <= DefectSlicesSet(ext, defects, xs)[i].firstSlc <= DefectSlicesSet(ext, defects, xs)[i].lastSlc
    {
      DefectSlicesOrdered(xs, defects[i].x1, defects[i].x2);
    }
  }

  /**
   * After the correction every defect of every side has
   * `LastSlc >= FirstSlc >= 1`; the sides themselves and everything else
   * on the board are unchanged.
   */
  lemma FixedSlicesOrdered(b: OptBoardRec)
    requires BoardSlicesFixed(b).Success?
    ensures var c := BoardSlicesFixed(b).value;
            && c.OptBoardRec? && b.OptBoardRec? && c.front.defects.ext.Some?
            && SlicesOrdered(c.front.defects.ext.value.u) && SlicesOrdered(c.front.defects.ext.value.d)
            && SlicesOrdered(c.front.defects.ext.value.f) && SlicesOrdered(c.front.defects.ext.value.r)
            && c.front.defects.sides == b.front.defects.sides && c.back == b.back && c.front.geom == b.front.geom
  {
    var s, e, xs := b.front.defects.sides, b.front.defects.ext.value, GeomXs(b.front.geom);
    SideSlicesOrdered(e.u, s.u.defects, xs);
    SideSlicesOrdered(e.d, s.d.defects, xs);
    SideSlicesOrdered(e.f, s.f.defects, xs);
    SideSlicesOrdered(e.r, s.r.defects, xs);
  }

  /** The correction fails exactly when there is no board, no informations, or a side with fewer defects than informations. */
  lemma SlicesFixFailsWhen(b: OptBoardRec)
    ensures BoardSlicesFixed(b).Failure? <==>
            (b.NoBoard? || b.front.defects.ext.None? || !SidesCover(b.front.defects.sides, b.front.defects.ext.value))
    ensures BoardSlicesFixed(b).Failure? ==> BoardSlicesFixed(b).error.UndefinedAccess?
  {
  }

  // ---------------------------------------------------------------------
  // The number of solutions stored.
  // ---------------------------------------------------------------------

  /** How many solutions follow the BD block: at least one above 503 and in 119 to 499 (the dimension reject). */
  function SolutionCount(rev: int, nrTWQ: int): (n: nat)
    ensures n >= Count(nrTWQ)
    ensures Gate(rev, 118, 503) ==> n >= 1
    ensures n != Count(nrTWQ) ==> Gate(rev, 118, 503) && nrTWQ <= 0 && n == 1
  {
    if Gate(rev, 118, 503) then (if nrTWQ < 1 then 1 else nrTWQ) else Count(nrTWQ)
  }

  // ---------------------------------------------------------------------
  // Edging solutions.
  // ---------------------------------------------------------------------

  /** The file holds a trim, edging or upside-down solution. */
  predicate AnyEdging(sols: seq<OptSolution>)
  {
    exists k :: 0 <= k < |sols| && IsEdgingSolType(sols[k].body.head.solType)
  }

  // ---------------------------------------------------------------------
  // Grading intervals of solutions before revision 73.
  // ---------------------------------------------------------------------

  /**
   * The intervals set for a solution in inches: griXLim_Dim, griXLim_Skip,
   * griXLim_MSR, griXLim_MC, griWane_NA, griKnot_NAdim, griPitch, griBark,
   * griSplit, griShakeSlope, griBluestainFace, griBluestainEdge,
   * griRedstainFace, griRedstainEdge, griRotFace, griRotEdge, griEndRot,
   * griSpeckFace, griSpeckEdge, griPinWorms, griSlopeGrain, griMachineBite,
   * griSawcut and griWarp, as the numbers of the enumeration.
   */
  const InchIntervals: seq<nat> := [0, 1, 2, 3, 9, 17, 24, 25, 26, 27, 32, 33, 34, 35, 36, 37, 38, 39, 40, 41, 42, 43, 44, 48]

  /**
   * The intervals set for a solution in millimetres: griXLim_Dim,
   * griWane_Scand, griKnot_Scand, griPitch, griBark, griSplit,
   * griBluestainFace, griRotFace and griWarp.
   */
  const MetricIntervals: seq<nat> := [0, 8, 16, 24, 25, 26, 32, 36, 48]

  function LegacyIntervals(du: int): seq<nat>
  {
    if du == duInch.Value() then InchIntervals else MetricIntervals
  }

  /** The chain of `includeInSet` calls as written: each on the 32-bit JavaScript set. */
  function IncludeAllAsWritten(s: int, es: seq<nat>): int
    decreases |es|
  {
    if |es| == 0 then s else IncludeAllAsWritten(IncludeInSet(s, es[0]), es[1..])
  }

  /** Member `e` added to a set of any width. */
  function Include(s: nat, e: nat): nat { BitOr(s, Pow2(e)) }

  /** The members `es` added to `s` one after the other. */
  function IncludeAll(s: nat, es: seq<nat>): nat
    decreases |es|
  {
    if |es| == 0 then s else IncludeAll(Include(s, es[0]), es[1..])
  }

  /** The grading intervals of an old solution as the source computes them. */
  function AsWrittenGradingIntvs(du: int, stored: int): int
  {
    IncludeAllAsWritten(stored, LegacyIntervals(du))
  }

  /** The grading intervals of an old solution as a set of all the members listed, the width the field has in later files. */
  function CorrectedGradingIntvs(du: int, stored: nat): nat
  {
    IncludeAll(stored, LegacyIntervals(du))
  }

  /** After the chain, a bit is set exactly when it was set before or its member is listed. */
  lemma {:induction false} IncludeAllBits(s: nat, es: seq<nat>, k: nat)
    decreases |es|
    ensures Bit(IncludeAll(s, es), k) <==> Bit(s, k) || k in es
  {
    if |es| > 0 {
      IncludeAllBits(Include(s, es[0]), es[1..], k);
      BitOfOr(s, Pow2(es[0]), k);
      BitOfPow2(es[0], k);
      assert es == [es[0]] + es[1..];
    }
  }

  /** Members below `n` added to a set below 2^n keep it below 2^n. */
  lemma {:induction false} IncludeAllBelow(s: nat, es: seq<nat>, n: nat)
    requires s < Pow2(n)
    requires forall i :: 0 <= i < |es| ==> es[i] < n
    decreases |es|
    ensures IncludeAll(s, es) < Pow2(n)
  {
    if |es| > 0 {
      Pow2Monotone(es[0], n);
      OrBelow(s, Pow2(es[0]), n);
      IncludeAllBelow(Include(s, es[0]), es[1..], n);
    }
  }

  lemma LegacyIntervalsBelow64(du: int)
    ensures forall i :: 0 <= i < |LegacyIntervals(du)| ==> LegacyIntervals(du)[i] < 64
  {
  }

  /**
   * The corrected intervals of a solution whose block was not stored
   * (0) hold exactly the listed members, and fit the 64-bit field.
   */
  lemma CorrectedIntervalsMembers(du: int, k: nat)
    ensures Bit(CorrectedGradingIntvs(du, 0), k) <==> k in LegacyIntervals(du)
    ensures CorrectedGradingIntvs(du, 0) < Pow2(64)
  {
    IncludeAllBits(0, LegacyIntervals(du), k);
    BitOfZero(k);
    LegacyIntervalsBelow64(du);
    IncludeAllBelow(0, LegacyIntervals(du), 64);
  }

  /** Including a member never drops one already in the set. */
  lemma IncludeKeeps(s: int, e: int, f: int)
    requires IsInSet(s, f)
    ensures IsInSet(IncludeInSet(s, e), f)
  {
    IsInSetIsBitTest(s, f);
    IsInSetIsBitTest(IncludeInSet(s, e), f);
    IncludedPattern(s, e);
    BitOfOr(Shl1(e), Uint32Of(s), f % 32);
  }

  /** Member `e` of the 32-bit set is bit `e % 32`: including `e` makes `e % 32` a member, when that is not 31. */
  lemma IncludeWrapped(s: int, e: nat)
    requires e % 32 != 31
    ensures IsInSet(IncludeInSet(s, e), e % 32)
  {
    assert Shl1(e) == Shl1(e % 32);
    IsInSetAfterInclude(s, e % 32);
  }

  /** A chain that includes a member whose bit is `f` ends with `f` in the set. */
  lemma {:induction false} AsWrittenHits(s: int, es: seq<nat>, f: nat, j: nat)
    requires j < |es| && es[j] % 32 == f && f != 31
    decreases |es|
    ensures IsInSet(IncludeAllAsWritten(s, es), f)
  {
    if j == 0 {
      IncludeWrapped(s, es[0]);
      AsWrittenKeeps(IncludeInSet(s, es[0]), es[1..], f);
    } else {
      AsWrittenHits(IncludeInSet(s, es[0]), es[1..], f, j - 1);
    }
  }

  lemma {:induction false} AsWrittenKeeps(s: int, es: seq<nat>, f: int)
    requires IsInSet(s, f)
    decreases |es|
    ensures IsInSet(IncludeAllAsWritten(s, es), f)
  {
    if |es| > 0 {
      IncludeKeeps(s, es[0], f);
      AsWrittenKeeps(IncludeInSet(s, es[0]), es[1..], f);
    }
  }

  /**
   * As written, including griRotFace (36) sets the bit of griXLim_AltQ (4),
   * which neither list names: the 32-bit shift wraps. The same happens in
   * inches and in millimetres, whatever the stored value.
   */
  lemma AsWrittenSetsAltQ(du: int, stored: int)
    ensures griRotFace.Value() in LegacyIntervals(du)
    ensures griXLim_AltQ.Value() !in LegacyIntervals(du)
    ensures IsInSet(AsWrittenGradingIntvs(du, stored), griXLim_AltQ.Value())
  {
    AltQNotListed(du);
    AsWrittenSetsBit4(du, stored);
  }

  lemma AltQNotListed(du: int)
    ensures griRotFace.Value() == 36 && griXLim_AltQ.Value() == 4
    ensures 36 in LegacyIntervals(du) && 4 !in LegacyIntervals(du)
  {
  }

  lemma AsWrittenSetsBit4(du: int, stored: int)
    ensures IsInSet(AsWrittenGradingIntvs(du, stored), 4)
  {
    if du == duInch.Value() {
      AsWrittenHits(stored, InchIntervals, 4, 14);
    } else {
      AsWrittenHits(stored, MetricIntervals, 4, 7);
    }
  }

  /**
   * An old solution with its grading intervals set as the source sets them,
   * by the 32-bit chain: the stored block is 0 in files before revision 73.
   */
  function WithLegacyGrading(s: OptSolution, rev: int): (t: OptSolution)
    ensures rev >= 73 ==> t == s
    ensures t.body.head == s.body.head && t.body.cuts == s.body.cuts && t.qfi == s.qfi
  {
    if rev < 73 then
      var g := s.body.settings.grading;
      s.(body := s.body.(settings := s.body.settings.(grading := g.(gradingIntvs := AsWrittenGradingIntvs(s.body.head.du, g.gradingIntvs)))))
    else s
  }

  lemma LegacyIntervalsNoBit31(du: int)
    ensures forall i :: 0 <= i < |LegacyIntervals(du)| ==> LegacyIntervals(du)[i] % 32 != 31
  {
  }

  /**
   * Below revision 73 every listed interval is a member of the solution's
   * set, at its number modulo 32, and so is griXLim_AltQ, which no list
   * names.
   */
  lemma LegacyGradingMembers(s: OptSolution, rev: int, j: nat)
    requires rev < 73 && j < |LegacyIntervals(s.body.head.du)|
    ensures IsInSet(WithLegacyGrading(s, rev).body.settings.grading.gradingIntvs, LegacyIntervals(s.body.head.du)[j] % 32)
    ensures IsInSet(WithLegacyGrading(s, rev).body.settings.grading.gradingIntvs, griXLim_AltQ.Value())
  {
    var du, stored := s.body.head.du, s.body.settings.grading.gradingIntvs;
    LegacyIntervalsNoBit31(du);
    AsWrittenHits(stored, LegacyIntervals(du), LegacyIntervals(du)[j] % 32, j);
    AsWrittenSetsAltQ(du, stored);
  }

  // ---------------------------------------------------------------------
  // Raw widths of solutions before revision 71.
  // ---------------------------------------------------------------------

  /** `Widths[iW].RawW` for the source's 1-based width rules: undefined outside 1..NrW. */
  function WidthRawW(widths: seq<DimRule>, iW: int): (res: Result<Num>)
    ensures res.Success? <==> 1 <= iW <= |widths|
    ensures res.Success? ==> res.value == F64(widths[iW - 1].raw)
    ensures res.Failure? ==> res.error.UndefinedAccess?
  {
    if 1 <= iW <= |widths| then Success(F64(widths[iW - 1].raw)) else Failure(UndefinedAccess)
  }

  function WithRawW(s: OptSolution, rawW: Num): OptSolution
  {
    s.(body := s.body.(settings := s.body.settings.(rawW := rawW)))
  }

  /** Solution `i` names a width rule of the table. */
  predicate NamesWidth(s: OptSolution, widths: seq<DimRule>)
  {
    1 <= s.body.cuts.indices.iW <= |widths|
  }

  /** The first `n` solutions take the raw width of the width rule they name; it fails when one names none. */
  function RawWFixed(sols: seq<OptSolution>, widths: seq<DimRule>, n: nat): (res: Result<seq<OptSolution>>)
    requires n <= |sols|
    decreases n
    ensures res.Success? ==> |res.value| == |sols|
  {
    if n == 0 then Success(sols)
    else
      var fixed :- RawWFixed(sols, widths, n - 1);
      var rawW :- WidthRawW(widths, sols[n - 1].body.cuts.indices.iW);
      Success(fixed[n - 1 := WithRawW(sols[n - 1], rawW)])
  }

  /** The loop `for (i = 1; i <= BD.NrTWQ; i++) GrdSol[i].RawW = Widths[GrdSol[i].iW].RawW`. */
  method FixRawW(sols: seq<OptSolution>, widths: seq<DimRule>, n: nat) returns (res: Result<seq<OptSolution>>)
    requires n <= |sols|
    ensures res == RawWFixed(sols, widths, n)
  {
    var acc := sols;
    var i := 0;
    while i < n
      invariant 0 <= i <= n
      invariant RawWFixed(sols, widths, i) == Success(acc)
      invariant |acc| == |sols|
    {
      var rawW := WidthRawW(widths, sols[i].body.cuts.indices.iW);
      if rawW.Failure? {
        RawWFixedFailsAfter(sols, widths, i + 1, n);
        return Failure(UndefinedAccess);
      }
      acc := acc[i := WithRawW(sols[i], rawW.value)];
      i := i + 1;
    }
    res := Success(acc);
  }

  /** Once a solution names no width rule, every longer run of the loop fails too. */
  lemma {:induction false} RawWFixedFailsAfter(sols: seq<OptSolution>, widths: seq<DimRule>, i: nat, n: nat)
    requires 1 <= i <= n <= |sols| && RawWFixed(sols, widths, i).Failure?
    decreases n
    ensures RawWFixed(sols, widths, n) == Failure(UndefinedAccess)
  {
    if i < n {
      RawWFixedFailsAfter(sols, widths, i, n - 1);
    } else {
      RawWFixedFailure(sols, widths, n);
    }
  }

  lemma {:induction false} RawWFixedFailure(sols: seq<OptSolution>, widths: seq<DimRule>, n: nat)
    requires n <= |sols| && RawWFixed(sols, widths, n).Failure?
    decreases n
    ensures RawWFixed(sols, widths, n).error == UndefinedAccess
  {
    if n > 0 && RawWFixed(sols, widths, n - 1).Failure? {
      RawWFixedFailure(sols, widths, n - 1);
    }
  }

  /**
   * The fix succeeds exactly when each of the first `n` solutions names a
   * width rule; then those take that rule's raw width, nothing else about
   * them changes, and the solutions after them are unchanged.
   */
  lemma {:induction false} RawWFixedMeaning(sols: seq<OptSolution>, widths: seq<DimRule>, n: nat)
    requires n <= |sols|
    decreases n
    ensures RawWFixed(sols, widths, n).Success? <==> forall i :: 0 <= i < n ==> NamesWidth(sols[i], widths)
    ensures RawWFixed(sols, widths, n).Success? ==>
              var t := RawWFixed(sols, widths, n).value;
              && |t| == |sols|
              && (forall i :: 0 <= i < n ==> t[i] == WithRawW(sols[i], F64(widths[sols[i].body.cuts.indices.iW - 1].raw)))
              && (forall i :: n <= i < |sols| ==> t[i] == sols[i])
  {
    if n > 0 {
      RawWFixedMeaning(sols, widths, n - 1);
    }
  }

  // ---------------------------------------------------------------------
  // The edger block.
  // ---------------------------------------------------------------------

  /** The files that may hold an edger solution: up to 100, 126 to 499 and above 511. */
  predicate StoresEdgerBlock(rev: int) { rev > 511 || rev <= 100 || (rev < 500 && rev > 125) }

  /** The edger gate is the dual-range gate at 125 and 511, widened by every revision up to 100. */
  lemma EdgerGateShape(rev: int)
    ensures StoresEdgerBlock(rev) <==> Gate(rev, 125, 511) || rev <= 100
  {
  }
}
