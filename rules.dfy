/**
 * The rules stored after the solutions: the thickness and width
 * rules (readThickRec, readWidthRec), the grade records (readGradeRec) and
 * the number of grade indices (grdIndLen in ReadBRES32Data). Most of each
 * record is vacant room skipped over; how much depends on the revision.
 */
module Rules {
  import opened Wrappers
  import opened Bytes
  import opened Reader
  import opened Arrays
  import opened Revision

  // ---------------------------------------------------------------------
  // Thickness and width rules.
  // ---------------------------------------------------------------------

  /**
   * A thickness or a width rule: its name (a string[25]), the nominal and
   * raw dimension, and the reject and alarm limits. readThickRec and
   * readWidthRec read the same layout, one into `ThName`/`NomTh`/`RawTh`,
   * the other into `WdName`/`NomW`/`RawW`.
   */
  datatype DimRule = DimRule(name: seq<uint8>, nom: Float64, raw: Float64, rjctLow: Float64, rjctUp: Float64,
                             alarmLow: Float64, alarmUp: Float64)

  /** The name and six alignment bytes, then six doubles: 80 bytes read. */
  const DimRuleReadEnd: nat := 80

  /**
   * The vacant bytes after the limits: an index and alignment in older
   * edger files, variation limits above revision 100, the open-side end
   * zones, an index and alignment, and the module dimension.
   */
  function DimRulePad(rev: int, hasEdgingSol: bool): nat
  {
    (if rev < 73 && hasEdgingSol then 8 else 0)
    + (if rev > 100 then 32 else 0)
    + (if Gate(rev, 124, 510) then 16 else 0)
    + (if Gate(rev, 125, 511) then 8 else 0)
    + (if Gate(rev, 133, 520) then 8 else 0)
  }

  function DimRuleSize(rev: int, hasEdgingSol: bool): nat { DimRuleReadEnd + DimRulePad(rev, hasEdgingSol) }

  /** The six doubles of a rule stored from `q`. */
  function DimLimitsAt(w: Window, q: int): (Float64, Float64, Float64, Float64, Float64, Float64)
  {
    (w.F64At(q), w.F64At(q + 8), w.F64At(q + 16), w.F64At(q + 24), w.F64At(q + 32), w.F64At(q + 40))
  }

  function DimRuleAt(w: Window, p: int): DimRule
  {
    var l := DimLimitsAt(w, p + 32);
    DimRule(w.Slice(p, 26), l.0, l.1, l.2, l.3, l.4, l.5)
  }

  /** The nominal and raw dimension and the four limits: 48 bytes. */
  method ReadLimits(r: ByteReader) returns (res: Result<(Float64, Float64, Float64, Float64, Float64, Float64)>)
    modifies r
    ensures res.Success? ==> r.win.Within(old(r.pos), 48)
    ensures res.Success? ==> r.pos == old(r.pos) + 48 && res.value == DimLimitsAt(r.win, old(r.pos))
    ensures res.Failure? ==> !r.win.Within(old(r.pos), 48) && res.error.ReadPastEnd?
  {
    ghost var p := r.pos;
    var a :- ReadThreeDoubles(r);
    var b :- ReadThreeDoubles(r);
    assert a == ThreeDoublesAt(r.win, p) && b == ThreeDoublesAt(r.win, p + 24);
    res := Success((a.0, a.1, a.2, b.0, b.1, b.2));
  }

  /** The name, the dimensions and the limits. */
  method ReadDimLimits(r: ByteReader) returns (res: Result<DimRule>)
    modifies r
    ensures res.Success? ==> r.win.Within(old(r.pos), DimRuleReadEnd)
    ensures res.Success? ==> r.pos == old(r.pos) + DimRuleReadEnd && res.value == DimRuleAt(r.win, old(r.pos))
    ensures res.Failure? ==> !r.win.Within(old(r.pos), DimRuleReadEnd) && res.error.ReadPastEnd?
  {
    ghost var p := r.pos;
    var name :- r.ReadShortString(25);
    r.IncOffset(6);
    assert r.pos == p + 32;
    var l :- ReadLimits(r);
    assert l == DimLimitsAt(r.win, p + 32);
    res := Success(DimRule(name, l.0, l.1, l.2, l.3, l.4, l.5));
  }

  /** The vacant part of a rule. */
  method SkipDimRulePad(r: ByteReader, rev: int, hasEdgingSol: bool)
    modifies r
    ensures r.pos == old(r.pos) + DimRulePad(rev, hasEdgingSol)
  {
    if rev < 73 && hasEdgingSol {
      r.IncOffset(4);
      r.IncOffset(4);
    }
    if rev > 100 {
      r.IncOffset(32);
    }
    if Gate(rev, 124, 510) {
      r.IncOffset(16);
    }
    if Gate(rev, 125, 511) {
      r.IncOffset(4);
      r.IncOffset(4);
    }
    if Gate(rev, 133, 520) {
      r.IncOffset(8);
    }
  }

  /** readThickRec and readWidthRec. */
  method ReadDimRule(r: ByteReader, rev: int, hasEdgingSol: bool) returns (res: Result<DimRule>)
    modifies r
    ensures res.Success? ==> r.win.Within(old(r.pos), DimRuleReadEnd)
    ensures res.Success? ==> r.pos == old(r.pos) + DimRuleSize(rev, hasEdgingSol) && res.value == DimRuleAt(r.win, old(r.pos))
    ensures res.Failure? ==> !r.win.Within(old(r.pos), DimRuleReadEnd) && res.error.ReadPastEnd?
  {
    var rule :- ReadDimLimits(r);
    SkipDimRulePad(r, rev, hasEdgingSol);
    res := Success(rule);
  }

  /** The decoder of one rule, for runs of rules. */
  function DimRuleReader(w: Window): int -> DimRule { q => DimRuleAt(w, q) }

  /** The `n` rules stored from `p` in a file of revision `rev`. */
  function DimRulesAt(w: Window, p: int, rev: int, hasEdgingSol: bool, n: nat): (s: seq<DimRule>)
    ensures |s| == n
  {
    RunAt(DimRuleReader(w), p, DimRuleSize(rev, hasEdgingSol), n)
  }

  /** The loops `for (i = 1; i <= NrT; i++) readThickRec(...)` and `... <= NrW ... readWidthRec(...)`. */
  method ReadDimRules(r: ByteReader, rev: int, hasEdgingSol: bool, n: int) returns (res: Result<seq<DimRule>>)
    modifies r
    ensures res.Success? ==> Count(n) == 0 || r.win.Within(old(r.pos), (Count(n) - 1) * DimRuleSize(rev, hasEdgingSol) + DimRuleReadEnd)
    ensures res.Success? ==> r.pos == old(r.pos) + Count(n) * DimRuleSize(rev, hasEdgingSol)
    ensures res.Success? ==> res.value == DimRulesAt(r.win, old(r.pos), rev, hasEdgingSol, Count(n))
    ensures res.Failure? ==> Count(n) > 0 && !r.win.Within(old(r.pos), (Count(n) - 1) * DimRuleSize(rev, hasEdgingSol) + DimRuleReadEnd)
    ensures res.Failure? ==> res.error.ReadPastEnd?
  {
    ghost var p0 := r.pos;
    ghost var size := DimRuleSize(rev, hasEdgingSol);
    var acc: seq<DimRule> := [];
    var i := 0;
    while i < Count(n)
      invariant 0 <= i <= Count(n)
      invariant r.pos == p0 + i * size
      invariant i > 0 ==> r.win.Within(p0, (i - 1) * size + DimRuleReadEnd)
      invariant acc == RunAt(DimRuleReader(r.win), p0, size, i)
    {
      StrideStep(size, DimRuleReadEnd, i, Count(n));
      ghost var q := r.pos;
      var x :- ReadDimRule(r, rev, hasEdgingSol);
      RunAtStep(DimRuleReader(r.win), p0, size, i, q, x);
      acc := acc + [x];
      i := i + 1;
    }
    res := Success(acc);
  }

  /** A rule takes 80 bytes in the oldest files, 88 in older edger files, and 144 in current ones. */
  lemma DimRuleSizes(rev: int, hasEdgingSol: bool)
    ensures rev < 73 ==> DimRuleSize(rev, hasEdgingSol) == if hasEdgingSol then 88 else 80
    ensures 73 <= rev <= 100 ==> DimRuleSize(rev, hasEdgingSol) == 80
    ensures 100 < rev <= 124 ==> DimRuleSize(rev, hasEdgingSol) == 112
    ensures 133 < rev < 500 || rev > 520 ==> DimRuleSize(rev, hasEdgingSol) == 144
  {
  }

  /** Whether the file has an edging solution only matters before revision 73. */
  lemma DimRulePadEdging(rev: int)
    ensures rev >= 73 ==> DimRuleSize(rev, true) == DimRuleSize(rev, false)
    ensures rev < 73 ==> DimRuleSize(rev, true) == DimRuleSize(rev, false) + 8
  {
  }

  // ---------------------------------------------------------------------
  // Grade records.
  // ---------------------------------------------------------------------

  /** A grade: its name (a string[25]) and short name (a string[8]). */
  datatype GradeRec = GradeRec(name: seq<uint8>, shortName: seq<uint8>)

  /** The two names: 26 + 9 bytes read. */
  const GradeRecReadEnd: nat := 35

  /** The vacant bytes after the names, by revision. */
  function GradeRecPad(rev: int): nat
  {
    if Gate(rev, 137, 517) then 45
    else if rev > 120 then 21
    else if rev > 86 then 17
    else if rev > 82 then 15
    else if rev > 68 then 13
    else if rev > 42 then 13
    else 9
  }

  function GradeRecSize(rev: int): nat { GradeRecReadEnd + GradeRecPad(rev) }

  function GradeRecAt(w: Window, p: int): GradeRec { GradeRec(w.Slice(p, 26), w.Slice(p + 26, 9)) }

  /** readGradeRec. */
  method ReadGradeRec(r: ByteReader, rev: int) returns (res: Result<GradeRec>)
    modifies r
    ensures res.Success? ==> r.win.Within(old(r.pos), GradeRecReadEnd)
    ensures res.Success? ==> r.pos == old(r.pos) + GradeRecSize(rev) && res.value == GradeRecAt(r.win, old(r.pos))
    ensures res.Failure? ==> !r.win.Within(old(r.pos), GradeRecReadEnd) && res.error.ReadPastEnd?
  {
    var name :- r.ReadShortString(25);
    var shortName :- r.ReadShortString(8);
    if Gate(rev, 137, 517) {
      r.IncOffset(45);
    } else if rev > 120 {
      r.IncOffset(21);
    } else if rev > 86 {
      r.IncOffset(17);
    } else if rev > 82 {
      r.IncOffset(15);
    } else if rev > 68 {
      r.IncOffset(13);
    } else if rev > 42 {
      r.IncOffset(13);
    } else {
      r.IncOffset(9);
    }
    res := Success(GradeRec(name, shortName));
  }

  /** The decoder of one grade record, for runs of them. */
  function GradeRecReader(w: Window): int -> GradeRec { q => GradeRecAt(w, q) }

  function GradeRecsAt(w: Window, p: int, rev: int, n: nat): (s: seq<GradeRec>)
    ensures |s| == n
  {
    RunAt(GradeRecReader(w), p, GradeRecSize(rev), n)
  }

  /** The loop `for (i = 1; i <= NrQ; i++) readGradeRec(...)`. */
  method ReadGradeRecs(r: ByteReader, rev: int, n: int) returns (res: Result<seq<GradeRec>>)
    modifies r
    ensures res.Success? ==> Count(n) == 0 || r.win.Within(old(r.pos), (Count(n) - 1) * GradeRecSize(rev) + GradeRecReadEnd)
    ensures res.Success? ==> r.pos == old(r.pos) + Count(n) * GradeRecSize(rev) && res.value == GradeRecsAt(r.win, old(r.pos), rev, Count(n))
    ensures res.Failure? ==> Count(n) > 0 && !r.win.Within(old(r.pos), (Count(n) - 1) * GradeRecSize(rev) + GradeRecReadEnd)
    ensures res.Failure? ==> res.error.ReadPastEnd?
  {
    ghost var p0 := r.pos;
    ghost var size := GradeRecSize(rev);
    var acc: seq<GradeRec> := [];
    var i := 0;
    while i < Count(n)
      invariant 0 <= i <= Count(n)
      invariant r.pos == p0 + i * size
      invariant i > 0 ==> r.win.Within(p0, (i - 1) * size + GradeRecReadEnd)
      invariant acc == RunAt(GradeRecReader(r.win), p0, size, i)
    {
      StrideStep(size, GradeRecReadEnd, i, Count(n));
      ghost var q := r.pos;
      var x :- ReadGradeRec(r, rev);
      RunAtStep(GradeRecReader(r.win), p0, size, i, q, x);
      acc := acc + [x];
      i := i + 1;
    }
    res := Success(acc);
  }

  /**
   * A grade record takes 44 bytes up to revision 42, 48 up to 82, then 50,
   * 52 and 56 as the versions grew, and 80 in current files; revisions 501
   * to 517 are sized like the legacy revisions 121 to 137.
   */
  lemma GradeRecSizes(rev: int)
    ensures rev <= 42 ==> GradeRecSize(rev) == 44
    ensures 42 < rev <= 82 ==> GradeRecSize(rev) == 48
    ensures 82 < rev <= 86 ==> GradeRecSize(rev) == 50
    ensures 86 < rev <= 120 ==> GradeRecSize(rev) == 52
    ensures 120 < rev <= 137 || 500 <= rev <= 517 ==> GradeRecSize(rev) == 56
    ensures 137 < rev < 500 || rev > 517 ==> GradeRecSize(rev) == 80
  {
  }

  /** Among the legacy revisions a later file never has smaller grade records. */
  lemma GradeRecSizeMonotone(a: int, b: int)
    requires a <= b < 500
    ensures GradeRecSize(a) <= GradeRecSize(b)
  {
  }

  // ---------------------------------------------------------------------
  // Grade indices.
  // ---------------------------------------------------------------------

  /** How many grade indices the file stores (`grdIndLen`). */
  function GrdIndLen(rev: int): nat
  {
    if rev > 85 then 150
    else if rev > 64 then 125
    else if rev > 61 then 100
    else if rev > 54 then 80
    else if rev > 53 then 48
    else if rev > 51 then 32
    else 24
  }

  /** A later file never stores fewer grade indices, and every file stores between 24 and 150. */
  lemma GrdIndLenMonotone(a: int, b: int)
    requires a <= b
    ensures GrdIndLen(a) <= GrdIndLen(b)
    ensures 24 <= GrdIndLen(a) <= 150
  {
  }

  /** The grade indices are read as `GrdIndLen` integers. */
  method ReadGrdInd(r: ByteReader, rev: int) returns (res: Result<seq<int>>)
    modifies r
    ensures res.Success? ==> r.win.Within(old(r.pos), 4 * GrdIndLen(rev))
    ensures res.Success? ==> r.pos == old(r.pos) + 4 * GrdIndLen(rev) && res.value == I32sAt(r.win, old(r.pos), GrdIndLen(rev))
    ensures res.Failure? ==> !r.win.Within(old(r.pos), 4 * GrdIndLen(rev)) && res.error.ReadPastEnd?
  {
    res := ReadIntegers(r, GrdIndLen(rev));
  }
}
