/**
 * The result header of a BRES32 file (ReadResultHeader): the solution's
 * values and dimensions, the option flags, the revision-dependent extras,
 * the alternative grade, the remanufacturing statistics (readRemanStats)
 * and the length items, each holding width items that hold quality items.
 *
 * Every block of the fixed part has a size that follows from the revision
 * alone; the length items are chains whose records each take a size given
 * by the counts they store. Arrays the source indexes from 1 are sequences
 * indexed from 0 here.
 */
module ResultHeader {
  import opened Wrappers
  import opened Bytes
  import opened Reader
  import opened Arrays
  import opened BresDefs
  import opened Revision
  import opened Solution
  import opened Edger

  // ---------------------------------------------------------------------
  // readRemanStats.
  // ---------------------------------------------------------------------

  /** Yield of the raw and the solution length, the average length and the count; 28 bytes read, 32 taken. */
  datatype RemanStats = RemanStats(cYieldRawLen: Float64, cYieldSolLen: Float64, cAveLen: Float64, cNumber: int)

  function RemanStatsAt(w: Window, p: int): RemanStats
  {
    RemanStats(w.F64At(p), w.F64At(p + 8), w.F64At(p + 16), w.I32At(p + 24))
  }

  /** readRemanStats. */
  method ReadRemanStats(r: ByteReader) returns (res: Result<RemanStats>)
    modifies r
    ensures res.Success? ==> r.win.Within(old(r.pos), 28)
    ensures res.Success? ==> r.pos == old(r.pos) + 32 && res.value == RemanStatsAt(r.win, old(r.pos))
    ensures res.Failure? ==> !r.win.Within(old(r.pos), 28) && res.error.ReadPastEnd?
  {
    var d :- ReadThreeDoubles(r);
    var cNumber :- r.ReadInteger();
    r.IncOffset(4);
    res := Success(RemanStats(d.0, d.1, d.2, cNumber));
  }

  // ---------------------------------------------------------------------
  // The fixed part.
  // ---------------------------------------------------------------------

  /** The solution type and the six values stored after it: 49 bytes. */
  datatype ResultValues = ResultValues(solType: int, totVal: Float64, lumberVal: Float64, chipVal: Float64,
                                       nomTh: Float64, measTh: Float64, rawTh: Float64)

  function ResultValuesAt(w: Window, p: int): ResultValues
  {
    ResultValues(w.U8At(p), w.F64At(p + 1), w.F64At(p + 9), w.F64At(p + 17), w.F64At(p + 25), w.F64At(p + 33), w.F64At(p + 41))
  }

  method ReadResultValues(r: ByteReader) returns (res: Result<ResultValues>)
    modifies r
    ensures res.Success? ==> r.win.Within(old(r.pos), 49)
    ensures res.Success? ==> r.pos == old(r.pos) + 49 && res.value == ResultValuesAt(r.win, old(r.pos))
    ensures res.Failure? ==> !r.win.Within(old(r.pos), 49) && res.error.ReadPastEnd?
  {
    var solType :- r.ReadByte();
    var v :- ReadThreeDoubles(r);
    var t :- ReadThreeDoubles(r);
    res := Success(ResultValues(solType, v.0, v.1, v.2, t.0, t.1, t.2));
  }

  /** The thickness index, the dimensions, the board number and the board type: 26 bytes. */
  datatype ResultDims = ResultDims(iT: int, aveWd: int, rawLen: int, x1: int, x2: int, boardNr: int, bType: int)

  function ResultDimsAt(w: Window, p: int): ResultDims
  {
    ResultDims(w.I32At(p), w.I32At(p + 4), w.I32At(p + 8), w.I32At(p + 12), w.I32At(p + 16), w.I32At(p + 20), w.U16At(p + 24))
  }

  method ReadResultDims(r: ByteReader) returns (res: Result<ResultDims>)
    modifies r
    ensures res.Success? ==> r.win.Within(old(r.pos), 26)
    ensures res.Success? ==> r.pos == old(r.pos) + 26 && res.value == ResultDimsAt(r.win, old(r.pos))
    ensures res.Failure? ==> !r.win.Within(old(r.pos), 26) && res.error.ReadPastEnd?
  {
    var iT :- r.ReadInteger();
    var aveWd :- r.ReadInteger();
    var rawLen :- r.ReadInteger();
    var x1 :- r.ReadInteger();
    var x2 :- r.ReadInteger();
    var boardNr :- r.ReadInteger();
    var bType :- r.ReadWord();
    res := Success(ResultDims(iT, aveWd, rawLen, x1, x2, boardNr, bType));
  }

  /**
   * The option flags (a byte below revision 51, a word up to 67, then a
   * cardinal) and the second option flags (a cardinal where stored, else
   * 0), then adjusted for edging solutions as in a solution record.
   */
  function ResultFlagsAt(w: Window, p: int, rev: int, solType: int): (int, int)
  {
    var flags := if rev < 51 then w.U8At(p) else if rev < 68 then w.U16At(p) else w.U32At(p);
    var stored := if StoresOptFlags2(rev) then w.U32At(p + OptFlagsSize(rev)) else 0;
    (flags, AdjustedOptFlags2(rev, solType, stored))
  }

  function ResultFlagsSize(rev: int): nat { OptFlagsSize(rev) + OptFlags2Size(rev) }

  method ReadResultFlags(r: ByteReader, rev: int, solType: int) returns (res: Result<(int, int)>)
    modifies r
    ensures res.Success? ==> r.win.Within(old(r.pos), ResultFlagsSize(rev))
    ensures res.Success? ==> r.pos == old(r.pos) + ResultFlagsSize(rev) && res.value == ResultFlagsAt(r.win, old(r.pos), rev, solType)
    ensures res.Failure? ==> !r.win.Within(old(r.pos), ResultFlagsSize(rev)) && res.error.ReadPastEnd?
  {
    var optFlags: int;
    if rev < 51 {
      optFlags :- r.ReadByte();
    } else if rev < 68 {
      optFlags :- r.ReadWord();
    } else {
      optFlags :- r.ReadCardinal();
    }
    var stored := 0;
    if StoresOptFlags2(rev) {
      stored :- r.ReadCardinal();
    }
    res := Success((optFlags, AdjustedOptFlags2(rev, solType, stored)));
  }

  /** Revision 33 stores six integers nobody keeps; every revision then stores the end-adjust byte, not kept. */
  function SpareSize(rev: int): nat { (if rev == 33 then 24 else 0) + 1 }

  method SkipSpare(r: ByteReader, rev: int) returns (res: Result<()>)
    modifies r
    ensures res.Success? ==> r.win.Within(old(r.pos), SpareSize(rev)) && r.pos == old(r.pos) + SpareSize(rev)
    ensures res.Failure? ==> !r.win.Within(old(r.pos), SpareSize(rev)) && res.error.ReadPastEnd?
  {
    if rev == 33 {
      var spare :- ReadIntegers(r, 6);
    }
    var rEndAdjust :- r.ReadByte();
    res := Success(());
  }

  /** The float dimensions, the cut-out, the base price and the reject reason, stored above revision 39: 33 bytes. */
  datatype ResultExtras = ResultExtras(fRawLen: Float32, fx1: Float32, fx2: Float32, xbi: int, fAveWd: Float32,
                                       cutOut: int, fCutOut: Float32, basePrice: int, rejectReason: int)

  function ResultExtrasAt(w: Window, p: int): ResultExtras
  {
    ResultExtras(w.F32At(p), w.F32At(p + 4), w.F32At(p + 8), w.I32At(p + 12), w.F32At(p + 16),
                 w.I32At(p + 20), w.F32At(p + 24), w.I32At(p + 28), w.U8At(p + 32))
  }

  method ReadResultExtras(r: ByteReader) returns (res: Result<ResultExtras>)
    modifies r
    ensures res.Success? ==> r.win.Within(old(r.pos), 33)
    ensures res.Success? ==> r.pos == old(r.pos) + 33 && res.value == ResultExtrasAt(r.win, old(r.pos))
    ensures res.Failure? ==> !r.win.Within(old(r.pos), 33) && res.error.ReadPastEnd?
  {
    var fRawLen :- r.ReadSingle();
    var fx1 :- r.ReadSingle();
    var fx2 :- r.ReadSingle();
    var xbi :- r.ReadInteger();
    var fAveWd :- r.ReadSingle();
    var cutOut :- r.ReadInteger();
    var fCutOut :- r.ReadSingle();
    var basePrice :- r.ReadInteger();
    var rejectReason :- r.ReadByte();
    res := Success(ResultExtras(fRawLen, fx1, fx2, xbi, fAveWd, cutOut, fCutOut, basePrice, rejectReason));
  }

  /**
   * A grade code: a string[25] in the revisions that store it as text, else
   * the integer stored, which the source turns into its decimal text.
   */
  datatype GradeCode = CodeText(text: seq<uint8>) | CodeNumber(code: int)

  /** Revisions above 517, and 138 to 499, store grade codes as text. */
  predicate GradeCodeAsText(rev: int) { Gate(rev, 137, 517) }

  function GradeCodeSize(rev: int): nat { if GradeCodeAsText(rev) then 26 else 4 }

  function GradeCodeAt(w: Window, p: int, rev: int): GradeCode
  {
    if GradeCodeAsText(rev) then CodeText(w.Slice(p, 26)) else CodeNumber(w.I32At(p))
  }

  method ReadGradeCode(r: ByteReader, rev: int) returns (res: Result<GradeCode>)
    modifies r
    ensures res.Success? ==> r.win.Within(old(r.pos), GradeCodeSize(rev))
    ensures res.Success? ==> r.pos == old(r.pos) + GradeCodeSize(rev) && res.value == GradeCodeAt(r.win, old(r.pos), rev)
    ensures res.Failure? ==> !r.win.Within(old(r.pos), GradeCodeSize(rev)) && res.error.ReadPastEnd?
  {
    if GradeCodeAsText(rev) {
      var text :- r.ReadShortString(25);
      res := Success(CodeText(text));
    } else {
      var code :- r.ReadInteger();
      res := Success(CodeNumber(code));
    }
  }

  /** The alternative grading result, stored above revision 82. */
  datatype AltGrade = AltGrade(optGrade: seq<uint8>, iQ: int, gradeCode: GradeCode, iProd: int, iSortClass: int)

  function AltGradeSize(rev: int): nat { 13 + GradeCodeSize(rev) + 8 }

  function AltGradeAt(w: Window, p: int, rev: int): AltGrade
  {
    var q := p + 13 + GradeCodeSize(rev);
    AltGrade(w.Slice(p, 9), w.I32At(p + 9), GradeCodeAt(w, p + 13, rev), w.I32At(q), w.I32At(q + 4))
  }

  method ReadAltGrade(r: ByteReader, rev: int) returns (res: Result<AltGrade>)
    modifies r
    ensures res.Success? ==> r.win.Within(old(r.pos), AltGradeSize(rev))
    ensures res.Success? ==> r.pos == old(r.pos) + AltGradeSize(rev) && res.value == AltGradeAt(r.win, old(r.pos), rev)
    ensures res.Failure? ==> !r.win.Within(old(r.pos), AltGradeSize(rev)) && res.error.ReadPastEnd?
  {
    var optGrade :- r.ReadShortString(8);
    var iQ :- r.ReadInteger();
    var gradeCode :- ReadGradeCode(r, rev);
    var iProd :- r.ReadInteger();
    var iSortClass :- r.ReadInteger();
    res := Success(AltGrade(optGrade, iQ, gradeCode, iProd, iSortClass));
  }

  /**
   * The blocks after the flags, each present from a revision on: the
   * extras (above 39), the alternative grade (above 82) and the statistics
   * of the optimised and the BCS remanufacturing (above 93).
   */
  datatype ResultOptions = ResultOptions(extras: Option<ResultExtras>, alt: Option<AltGrade>, reman: Option<(RemanStats, RemanStats)>)

  function ExtrasSize(rev: int): nat { if rev > 39 then 33 else 0 }
  function AltSize(rev: int): nat { if rev > 82 then AltGradeSize(rev) else 0 }
  function RemanPairSize(rev: int): nat { if rev > 93 then 64 else 0 }

  function ResultOptionsSize(rev: int): nat { ExtrasSize(rev) + AltSize(rev) + RemanPairSize(rev) }

  function ResultOptionsAt(w: Window, p: int, rev: int): ResultOptions
  {
    var a := p + ExtrasSize(rev);
    var s := a + AltSize(rev);
    ResultOptions(if rev > 39 then Some(ResultExtrasAt(w, p)) else None,
                  if rev > 82 then Some(AltGradeAt(w, a, rev)) else None,
                  if rev > 93 then Some((RemanStatsAt(w, s), RemanStatsAt(w, s + 32))) else None)
  }

  method ReadOptionalExtras(r: ByteReader, rev: int) returns (res: Result<Option<ResultExtras>>)
    modifies r
    ensures res.Success? ==> r.pos == old(r.pos) + ExtrasSize(rev)
    ensures res.Success? ==> res.value == (if rev > 39 then Some(ResultExtrasAt(r.win, old(r.pos))) else None)
    ensures res.Failure? ==> res.error.ReadPastEnd?
  {
    if rev > 39 {
      var e :- ReadResultExtras(r);
      res := Success(Some(e));
    } else {
      res := Success(None);
    }
  }

  method ReadOptionalAlt(r: ByteReader, rev: int) returns (res: Result<Option<AltGrade>>)
    modifies r
    ensures res.Success? ==> r.pos == old(r.pos) + AltSize(rev)
    ensures res.Success? ==> res.value == (if rev > 82 then Some(AltGradeAt(r.win, old(r.pos), rev)) else None)
    ensures res.Failure? ==> res.error.ReadPastEnd?
  {
    if rev > 82 {
      var a :- ReadAltGrade(r, rev);
      res := Success(Some(a));
    } else {
      res := Success(None);
    }
  }

  method ReadRemanPair(r: ByteReader, rev: int) returns (res: Result<Option<(RemanStats, RemanStats)>>)
    modifies r
    ensures res.Success? ==> r.pos == old(r.pos) + RemanPairSize(rev)
    ensures res.Success? ==> res.value == (if rev > 93 then Some((RemanStatsAt(r.win, old(r.pos)), RemanStatsAt(r.win, old(r.pos) + 32))) else None)
    ensures res.Failure? ==> res.error.ReadPastEnd?
  {
    if rev > 93 {
      var opt :- ReadRemanStats(r);
      var bcs :- ReadRemanStats(r);
      res := Success(Some((opt, bcs)));
    } else {
      res := Success(None);
    }
  }

  method ReadResultOptions(r: ByteReader, rev: int) returns (res: Result<ResultOptions>)
    modifies r
    ensures res.Success? ==> r.pos == old(r.pos) + ResultOptionsSize(rev) && res.value == ResultOptionsAt(r.win, old(r.pos), rev)
    ensures res.Failure? ==> res.error.ReadPastEnd?
  {
    ghost var p := r.pos;
    var extras :- ReadOptionalExtras(r, rev);
    assert r.pos == p + ExtrasSize(rev);
    var alt :- ReadOptionalAlt(r, rev);
    assert r.pos == p + ExtrasSize(rev) + AltSize(rev);
    var reman :- ReadRemanPair(r, rev);
    res := Success(ResultOptions(extras, alt, reman));
  }

  /** Everything the result header stores before its length items. */
  datatype ResultHead = ResultHead(values: ResultValues, dims: ResultDims, optFlags: int, optFlags2: int, options: ResultOptions)

  /** The bytes of the fixed part: values and dimensions, flags, the spare bytes and the optional blocks. */
  function ResultHeadSize(rev: int): nat { ResultFrontSize(rev) + ResultOptionsSize(rev) }

  /** The values, the dimensions and the flags, which the spare bytes follow. */
  function ResultFrontAt(w: Window, p: int, rev: int): (ResultValues, ResultDims, (int, int))
  {
    var values := ResultValuesAt(w, p);
    (values, ResultDimsAt(w, p + 49), ResultFlagsAt(w, p + 75, rev, values.solType))
  }

  function ResultFrontSize(rev: int): nat { 75 + ResultFlagsSize(rev) + SpareSize(rev) }

  function ResultHeadAt(w: Window, p: int, rev: int): ResultHead
  {
    var front := ResultFrontAt(w, p, rev);
    ResultHead(front.0, front.1, front.2.0, front.2.1, ResultOptionsAt(w, p + ResultFrontSize(rev), rev))
  }

  method ReadResultFront(r: ByteReader, rev: int) returns (res: Result<(ResultValues, ResultDims, (int, int))>)
    modifies r
    ensures res.Success? ==> r.pos == old(r.pos) + ResultFrontSize(rev) && res.value == ResultFrontAt(r.win, old(r.pos), rev)
    ensures res.Failure? ==> res.error.ReadPastEnd?
  {
    var values :- ReadResultValues(r);
    var dims :- ReadResultDims(r);
    var flags :- ReadResultFlags(r, rev, values.solType);
    var spare :- SkipSpare(r, rev);
    res := Success((values, dims, flags));
  }

  method ReadResultHead(r: ByteReader, rev: int) returns (res: Result<ResultHead>)
    modifies r
    ensures res.Success? ==> r.pos == old(r.pos) + ResultHeadSize(rev) && res.value == ResultHeadAt(r.win, old(r.pos), rev)
    ensures res.Failure? ==> res.error.ReadPastEnd?
  {
    var front :- ReadResultFront(r, rev);
    var options :- ReadResultOptions(r, rev);
    res := Success(ResultHead(front.0, front.1, front.2.0, front.2.1, options));
  }

  // ---------------------------------------------------------------------
  // Quality items.
  // ---------------------------------------------------------------------

  /** The grade name (a string[8]), the quality, product and sort-class indices and the dimension unit. */
  datatype QIdent = QIdent(optGrade: seq<uint8>, iQ: int, iProd: int, iSortClass: int, iDimUnit: int)

  /**
   * A quality item: its identity, the nine integer module and cut values
   * (xmod1, xmod2, CutOff1, CutOff2, xcut1, xcut2, Add1, Add2, ModuleLen),
   * the singles read for them, the cut reasons, the nominal length and the
   * grade code. Up to revision 38 the layout differs: no cut reasons and no
   * nominal length, and before 35 only fxmod1 and fxmod2 are stored.
   */
  datatype QItem = QItem(ident: QIdent, mods: seq<int>, fmods: seq<Float32>, reasons: Option<(int, int)>,
                         nomLen: Option<(Num, Num)>, gradeCode: GradeCode)

  /** The bytes of a quality item of the current layout (above revision 38) before its grade code. */
  function QItemBodySize(rev: int): nat { if rev > 112 then 120 else 112 }

  /** The text grade code, two bytes and twelve vacant integers after it, where stored as text. */
  function QItemCodeSize(rev: int): nat { if GradeCodeAsText(rev) then 76 else 0 }

  /** The bytes of one quality item. */
  function QItemSize(rev: int): nat
  {
    if rev > 38 then QItemBodySize(rev) + QItemCodeSize(rev)
    else 74 + (if rev > 34 then 36 else 0)
  }

  /** The identity of a current-layout item and its stored grade code: 33 bytes read, 36 taken. */
  function QIdentNewAt(w: Window, q: int): QIdent
  {
    QIdent(w.Slice(q, 9), w.I32At(q + 12), w.I32At(q + 20), w.I32At(q + 24), w.I32At(q + 28))
  }

  /** The quality, grade-code, product, sort-class and dimension-unit integers both layouts store in this order: 20 bytes. */
  function QNumbersAt(w: Window, q: int): (int, int, int, int, int)
  {
    (w.I32At(q), w.I32At(q + 4), w.I32At(q + 8), w.I32At(q + 12), w.I32At(q + 16))
  }

  method ReadQNumbers(r: ByteReader) returns (res: Result<(int, int, int, int, int)>)
    modifies r
    ensures res.Success? ==> r.pos == old(r.pos) + 20 && res.value == QNumbersAt(r.win, old(r.pos))
    ensures res.Failure? ==> res.error.ReadPastEnd?
  {
    var iQ :- r.ReadInteger();
    var gradeCode :- r.ReadInteger();
    var iProd :- r.ReadInteger();
    var iSortClass :- r.ReadInteger();
    var iDimUnit :- r.ReadInteger();
    res := Success((iQ, gradeCode, iProd, iSortClass, iDimUnit));
  }

  method ReadQIdentNew(r: ByteReader) returns (res: Result<(QIdent, int)>)
    modifies r
    ensures res.Success? ==> r.pos == old(r.pos) + 36 && res.value == (QIdentNewAt(r.win, old(r.pos)), r.win.I32At(old(r.pos) + 16))
    ensures res.Failure? ==> res.error.ReadPastEnd?
  {
    var optGrade :- r.ReadShortString(8);
    r.IncOffset(3);
    var n :- ReadQNumbers(r);
    var trimRule :- r.ReadByte();
    r.IncOffset(3);
    res := Success((QIdent(optGrade, n.0, n.2, n.3, n.4), n.1));
  }

  /** The cut reasons and the nominal length of a current-layout item: 300 for both when not stored. */
  function QReasonsAt(w: Window, q: int, rev: int): ((int, int), (Num, Num))
  {
    ((w.U8At(q), w.U8At(q + 1)),
     if rev > 112 then (Int(w.I32At(q + 4)), F32(w.F32At(q + 8))) else (Int(300), Int(300)))
  }

  method ReadQReasons(r: ByteReader, rev: int) returns (res: Result<((int, int), (Num, Num))>)
    modifies r
    ensures res.Success? ==> r.pos == old(r.pos) + QItemBodySize(rev) - 108 && res.value == QReasonsAt(r.win, old(r.pos), rev)
    ensures res.Failure? ==> res.error.ReadPastEnd?
  {
    var cut1Reason :- r.ReadByte();
    var cut2Reason :- r.ReadByte();
    var align1 :- r.ReadByte();
    var align2 :- r.ReadByte();
    var nomLen := (Int(300), Int(300));
    if rev > 112 {
      var n :- r.ReadInteger();
      var f :- r.ReadSingle();
      nomLen := (Int(n), F32(f));
    }
    res := Success(((cut1Reason, cut2Reason), nomLen));
  }

  /** The grade code of a current-layout item: the text, or the integer stored in its identity. */
  function QCodeAt(w: Window, q: int, rev: int, stored: int): GradeCode
  {
    if GradeCodeAsText(rev) then CodeText(w.Slice(q, 26)) else CodeNumber(stored)
  }

  method ReadQCode(r: ByteReader, rev: int, stored: int) returns (res: Result<GradeCode>)
    modifies r
    ensures res.Success? ==> r.pos == old(r.pos) + QItemCodeSize(rev) && res.value == QCodeAt(r.win, old(r.pos), rev, stored)
    ensures res.Failure? ==> res.error.ReadPastEnd?
  {
    if GradeCodeAsText(rev) {
      var text :- r.ReadShortString(25);
      var align1 :- r.ReadByte();
      var align2 :- r.ReadByte();
      r.IncOffset(12 * 4);
      res := Success(CodeText(text));
    } else {
      res := Success(CodeNumber(stored));
    }
  }

  function QItemNewAt(w: Window, q: int, rev: int): QItem
  {
    var t := QReasonsAt(w, q + 108, rev);
    QItem(QIdentNewAt(w, q), I32sAt(w, q + 36, 9), F32sAt(w, q + 72, 9), Some(t.0), Some(t.1),
          QCodeAt(w, q + QItemBodySize(rev), rev, w.I32At(q + 16)))
  }

  /** A quality item of the current layout. */
  method ReadQItemNew(r: ByteReader, rev: int) returns (res: Result<QItem>)
    modifies r
    ensures res.Success? ==> r.pos == old(r.pos) + QItemBodySize(rev) + QItemCodeSize(rev)
    ensures res.Success? ==> res.value == QItemNewAt(r.win, old(r.pos), rev)
    ensures res.Failure? ==> res.error.ReadPastEnd?
  {
    ghost var q := r.pos;
    var ident :- ReadQIdentNew(r);
    var mods :- ReadIntegers(r, 9);
    var fmods :- ReadSingles(r, 9);
    assert r.pos == q + 108;
    var t :- ReadQReasons(r, rev);
    var code :- ReadQCode(r, rev, ident.1);
    res := Success(QItem(ident.0, mods, fmods, Some(t.0), Some(t.1), code));
  }

  /** The two singles, the identity and the stored grade code of an item of the old layout: 37 bytes. */
  function QIdentOldAt(w: Window, q: int): QIdent
  {
    QIdent(w.Slice(q + 8, 9), w.I32At(q + 17), w.I32At(q + 25), w.I32At(q + 29), w.I32At(q + 33))
  }

  method ReadQIdentOld(r: ByteReader) returns (res: Result<(seq<Float32>, QIdent, int)>)
    modifies r
    ensures res.Success? ==> r.pos == old(r.pos) + 37
    ensures res.Success? ==> res.value == ([r.win.F32At(old(r.pos)), r.win.F32At(old(r.pos) + 4)], QIdentOldAt(r.win, old(r.pos)), r.win.I32At(old(r.pos) + 21))
    ensures res.Failure? ==> res.error.ReadPastEnd?
  {
    var fxmod1 :- r.ReadSingle();
    var fxmod2 :- r.ReadSingle();
    var optGrade :- r.ReadShortString(8);
    var n :- ReadQNumbers(r);
    res := Success(([fxmod1, fxmod2], QIdent(optGrade, n.0, n.2, n.3, n.4), n.1));
  }

  /** The eight module and cut integers, the trim rule (not kept) and the module length of the old layout: 37 bytes. */
  method ReadQModsOld(r: ByteReader) returns (res: Result<seq<int>>)
    modifies r
    ensures res.Success? ==> r.pos == old(r.pos) + 37
    ensures res.Success? ==> res.value == I32sAt(r.win, old(r.pos), 8) + [r.win.I32At(old(r.pos) + 33)]
    ensures res.Failure? ==> res.error.ReadPastEnd?
  {
    var mods :- ReadIntegers(r, 8);
    var trimRule :- r.ReadByte();
    var moduleLen :- r.ReadInteger();
    res := Success(mods + [moduleLen]);
  }

  function QItemOldAt(w: Window, q: int, rev: int): QItem
  {
    QItem(QIdentOldAt(w, q), I32sAt(w, q + 37, 8) + [w.I32At(q + 70)],
          if rev > 34 then F32sAt(w, q + 74, 9) else [w.F32At(q), w.F32At(q + 4)],
          None, None, CodeNumber(w.I32At(q + 21)))
  }

  /** A quality item of the old layout (up to revision 38); above 34 the nine singles replace fxmod1 and fxmod2. */
  method ReadQItemOld(r: ByteReader, rev: int) returns (res: Result<QItem>)
    modifies r
    ensures res.Success? ==> r.pos == old(r.pos) + 74 + (if rev > 34 then 36 else 0)
    ensures res.Success? ==> res.value == QItemOldAt(r.win, old(r.pos), rev)
    ensures res.Failure? ==> res.error.ReadPastEnd?
  {
    var ident :- ReadQIdentOld(r);
    var mods :- ReadQModsOld(r);
    var fmods := ident.0;
    if rev > 34 {
      fmods :- ReadSingles(r, 9);
    }
    res := Success(QItem(ident.1, mods, fmods, None, None, CodeNumber(ident.2)));
  }

  function QItemAt(w: Window, q: int, rev: int): QItem
  {
    if rev > 38 then QItemNewAt(w, q, rev) else QItemOldAt(w, q, rev)
  }

  method ReadQItem(r: ByteReader, rev: int) returns (res: Result<QItem>)
    modifies r
    ensures res.Success? ==> r.pos == old(r.pos) + QItemSize(rev) && res.value == QItemAt(r.win, old(r.pos), rev)
    ensures res.Failure? ==> res.error.ReadPastEnd?
  {
    if rev > 38 {
      res := ReadQItemNew(r, rev);
    } else {
      res := ReadQItemOld(r, rev);
    }
  }

  /** The decoder of one quality item, for runs of them. */
  function QItemReader(w: Window, rev: int): int -> QItem { q => QItemAt(w, q, rev) }

  /** The `n` quality items stored back to back from `p`. */
  function QItemsAt(w: Window, p: int, rev: int, n: nat): (s: seq<QItem>)
    ensures |s| == n
  {
    RunAt(QItemReader(w, rev), p, QItemSize(rev), n)
  }

  /** `NrQItems` quality items (none when the count is not positive). */
  method ReadQItems(r: ByteReader, rev: int, n: int) returns (res: Result<seq<QItem>>)
    modifies r
    ensures res.Success? ==> r.pos == old(r.pos) + Count(n) * QItemSize(rev) && res.value == QItemsAt(r.win, old(r.pos), rev, Count(n))
    ensures res.Failure? ==> res.error.ReadPastEnd?
  {
    ghost var p0 := r.pos;
    var acc: seq<QItem> := [];
    var k := 0;
    while k < Count(n)
      invariant 0 <= k <= Count(n)
      invariant r.pos == p0 + k * QItemSize(rev)
      invariant acc == RunAt(QItemReader(r.win, rev), p0, QItemSize(rev), k)
    {
      ghost var q := r.pos;
      var x :- ReadQItem(r, rev);
      RunAtStep(QItemReader(r.win, rev), p0, QItemSize(rev), k, q, x);
      acc := acc + [x];
      k := k + 1;
    }
    res := Success(acc);
  }

  // ---------------------------------------------------------------------
  // Width items.
  // ---------------------------------------------------------------------

  /** The nominal and raw width, the width index, the two y positions, the item count and the items. */
  datatype WItem = WItem(nomWd: Float64, rawWd: Float64, iW: int, yc1: int, yc2: int, nrQItems: int, qItems: seq<QItem>)

  /** The quality-item count stored in the width item at `p`. */
  function NrQItemsAt(w: Window, p: int): int { w.I32At(p + 28) }

  function WItemAt(w: Window, p: int, rev: int): WItem
  {
    var n := NrQItemsAt(w, p);
    WItem(w.F64At(p), w.F64At(p + 8), w.I32At(p + 16), w.I32At(p + 20), w.I32At(p + 24), n, QItemsAt(w, p + 32, rev, Count(n)))
  }

  /** A width item takes 32 bytes and its quality items. */
  function WItemSizeAt(w: Window, p: int, rev: int): int { 32 + Count(NrQItemsAt(w, p)) * QItemSize(rev) }

  method ReadWItem(r: ByteReader, rev: int) returns (res: Result<WItem>)
    modifies r
    ensures res.Success? ==> r.pos == old(r.pos) + WItemSizeAt(r.win, old(r.pos), rev) && res.value == WItemAt(r.win, old(r.pos), rev)
    ensures res.Failure? ==> res.error.ReadPastEnd?
  {
    var nomWd :- r.ReadDouble();
    var rawWd :- r.ReadDouble();
    var iW :- r.ReadInteger();
    var yc1 :- r.ReadInteger();
    var yc2 :- r.ReadInteger();
    var n :- r.ReadInteger();
    var qItems :- ReadQItems(r, rev, n);
    res := Success(WItem(nomWd, rawWd, iW, yc1, yc2, n, qItems));
  }

  /** The decoder and the size of one width item, for chains of them. */
  function WItemReader(w: Window, rev: int): int -> WItem { q => WItemAt(w, q, rev) }
  function WItemSizeReader(w: Window, rev: int): int -> int { q => WItemSizeAt(w, q, rev) }

  /** The `n` width items stored from `p`, each starting where the one before ends. */
  function WItemsAt(w: Window, p: int, rev: int, n: nat): (s: seq<WItem>)
    ensures |s| == n
  {
    ChainAt(WItemReader(w, rev), WItemSizeReader(w, rev), p, n)
  }

  /** Where the `n` width items stored from `p` end. */
  function WItemsEnd(w: Window, p: int, rev: int, n: nat): int
  {
    ChainPos(WItemSizeReader(w, rev), p, n)
  }

  /** The width item where a chain of `j` of them from `p0` ends: the chain grows by one. */
  method ReadNextWItem(r: ByteReader, rev: int, ghost p0: int, ghost j: nat) returns (res: Result<WItem>)
    modifies r
    requires r.pos == ChainPos(WItemSizeReader(r.win, rev), p0, j)
    ensures res.Success? ==> r.pos == ChainPos(WItemSizeReader(r.win, rev), p0, j + 1)
    ensures res.Success? ==> ChainAt(WItemReader(r.win, rev), WItemSizeReader(r.win, rev), p0, j) + [res.value]
                             == ChainAt(WItemReader(r.win, rev), WItemSizeReader(r.win, rev), p0, j + 1)
    ensures res.Failure? ==> res.error.ReadPastEnd?
  {
    ghost var q := r.pos;
    res := ReadWItem(r, rev);
    if res.Success? {
      ChainAtStep(WItemReader(r.win, rev), WItemSizeReader(r.win, rev), p0, j, q, res.value);
    }
  }

  /** `NrWItems` width items (none when the count is not positive). */
  method ReadWItems(r: ByteReader, rev: int, n: int) returns (res: Result<seq<WItem>>)
    modifies r
    ensures res.Success? ==> r.pos == WItemsEnd(r.win, old(r.pos), rev, Count(n)) && res.value == WItemsAt(r.win, old(r.pos), rev, Count(n))
    ensures res.Failure? ==> res.error.ReadPastEnd?
  {
    ghost var p0 := r.pos;
    var acc: seq<WItem> := [];
    var j := 0;
    while j < Count(n)
      invariant 0 <= j <= Count(n)
      invariant r.pos == ChainPos(WItemSizeReader(r.win, rev), p0, j)
      invariant acc == ChainAt(WItemReader(r.win, rev), WItemSizeReader(r.win, rev), p0, j)
    {
      var x :- ReadNextWItem(r, rev, p0, j);
      acc := acc + [x];
      j := j + 1;
    }
    res := Success(acc);
  }

  // ---------------------------------------------------------------------
  // Length items.
  // ---------------------------------------------------------------------

  /**
   * The two x positions, their singles (above revision 52, each stored
   * with a spare single after it) and the remanufacturing solution (above
   * 58), then the width-item count.
   */
  datatype LItemHead = LItemHead(xL1: int, xL2: int, fxL: Option<(Float32, Float32)>, remanSol: Option<int>, nrWItems: int)

  function LItemHeadSize(rev: int): nat { 12 + (if rev > 52 then 16 else 0) + (if rev > 58 then 1 else 0) }

  function LItemHeadAt(w: Window, p: int, rev: int): LItemHead
  {
    LItemHead(w.I32At(p), w.I32At(p + 4), if rev > 52 then Some((w.F32At(p + 8), w.F32At(p + 16))) else None,
              if rev > 58 then Some(w.U8At(p + 24)) else None, w.I32At(p + LItemHeadSize(rev) - 4))
  }

  method ReadLItemHead(r: ByteReader, rev: int) returns (res: Result<LItemHead>)
    modifies r
    ensures res.Success? ==> r.win.Within(old(r.pos), LItemHeadSize(rev))
    ensures res.Success? ==> r.pos == old(r.pos) + LItemHeadSize(rev) && res.value == LItemHeadAt(r.win, old(r.pos), rev)
    ensures res.Failure? ==> !r.win.Within(old(r.pos), LItemHeadSize(rev)) && res.error.ReadPastEnd?
  {
    var xL1 :- r.ReadInteger();
    var xL2 :- r.ReadInteger();
    var mid :- ReadLItemMid(r, rev);
    var nrWItems :- r.ReadInteger();
    res := Success(LItemHead(xL1, xL2, mid.0, mid.1, nrWItems));
  }

  /** The singles (above revision 52) and the remanufacturing solution (above 58) of a length-item head. */
  function LItemMidSize(rev: int): nat { LItemHeadSize(rev) - 12 }

  method ReadLItemMid(r: ByteReader, rev: int) returns (res: Result<(Option<(Float32, Float32)>, Option<int>)>)
    modifies r
    ensures res.Success? ==> LItemMidSize(rev) == 0 || r.win.Within(old(r.pos), LItemMidSize(rev))
    ensures res.Success? ==> r.pos == old(r.pos) + LItemMidSize(rev)
    ensures res.Success? ==> res.value.0 == (if rev > 52 then Some((r.win.F32At(old(r.pos)), r.win.F32At(old(r.pos) + 8))) else None)
    ensures res.Success? ==> res.value.1 == (if rev > 58 then Some(r.win.U8At(old(r.pos) + 16)) else None)
    ensures res.Failure? ==> LItemMidSize(rev) > 0 && !r.win.Within(old(r.pos), LItemMidSize(rev)) && res.error.ReadPastEnd?
  {
    if rev > 52 {
      var fxL1 :- r.ReadSingle();
      var spare1 :- r.ReadSingle();
      var fxL2 :- r.ReadSingle();
      var spare2 :- r.ReadSingle();
      var remanSol: Option<int> := None;
      if rev > 58 {
        var s :- r.ReadByte();
        remanSol := Some(s);
      }
      res := Success((Some((fxL1, fxL2)), remanSol));
    } else {
      res := Success((None, None));
    }
  }

  /** The edging solution, the parallel displacement and the positioning arms after the width items: 101 bytes. */
  datatype LItemTail = LItemTail(edgingSol: int, parDisplc: int, posArms: seq<PosArm>)

  const LItemTailSize: nat := 101

  function LItemTailAt(w: Window, p: int): LItemTail
  {
    LItemTail(w.U8At(p), w.I32At(p + 1), PosArmsAt(w, p + 5))
  }

  method ReadLItemTail(r: ByteReader) returns (res: Result<LItemTail>)
    modifies r
    ensures res.Success? ==> r.pos == old(r.pos) + LItemTailSize && res.value == LItemTailAt(r.win, old(r.pos))
    ensures res.Failure? ==> res.error.ReadPastEnd?
  {
    var edgingSol :- r.ReadByte();
    var parDisplc :- r.ReadInteger();
    var posArms :- ReadPosArms(r);
    res := Success(LItemTail(edgingSol, parDisplc, posArms));
  }

  datatype LItem = LItem(head: LItemHead, wItems: seq<WItem>, tail: LItemTail)

  /** Where the width items of the length item at `p` start, and how many there are. */
  function WItemsPos(p: int, rev: int): int { p + LItemHeadSize(rev) }
  function NrWItemsAt(w: Window, p: int, rev: int): nat { Count(w.I32At(p + LItemHeadSize(rev) - 4)) }

  function LItemAt(w: Window, p: int, rev: int): LItem
  {
    var q := WItemsPos(p, rev);
    var n := NrWItemsAt(w, p, rev);
    LItem(LItemHeadAt(w, p, rev), WItemsAt(w, q, rev, n), LItemTailAt(w, WItemsEnd(w, q, rev, n)))
  }

  /** The bytes of the length item at `p`: its head, its width items and its tail. */
  function LItemSizeAt(w: Window, p: int, rev: int): int
  {
    var q := WItemsPos(p, rev);
    WItemsEnd(w, q, rev, NrWItemsAt(w, p, rev)) - p + LItemTailSize
  }

  method ReadLItem(r: ByteReader, rev: int) returns (res: Result<LItem>)
    modifies r
    ensures res.Success? ==> r.pos == old(r.pos) + LItemSizeAt(r.win, old(r.pos), rev) && res.value == LItemAt(r.win, old(r.pos), rev)
    ensures res.Failure? ==> res.error.ReadPastEnd?
  {
    ghost var p := r.pos;
    var head :- ReadLItemHead(r, rev);
    assert r.pos == WItemsPos(p, rev) && Count(head.nrWItems) == NrWItemsAt(r.win, p, rev);
    var wItems :- ReadWItems(r, rev, head.nrWItems);
    assert r.pos == WItemsEnd(r.win, WItemsPos(p, rev), rev, NrWItemsAt(r.win, p, rev));
    var tail :- ReadLItemTail(r);
    res := Success(LItem(head, wItems, tail));
  }

  /** The decoder and the size of one length item, for chains of them. */
  function LItemReader(w: Window, rev: int): int -> LItem { q => LItemAt(w, q, rev) }
  function LItemSizeReader(w: Window, rev: int): int -> int { q => LItemSizeAt(w, q, rev) }

  /** The length item where a chain of `i` of them from `p0` ends: the chain grows by one. */
  method ReadNextLItem(r: ByteReader, rev: int, ghost p0: int, ghost i: nat) returns (res: Result<LItem>)
    modifies r
    requires r.pos == ChainPos(LItemSizeReader(r.win, rev), p0, i)
    ensures res.Success? ==> r.pos == ChainPos(LItemSizeReader(r.win, rev), p0, i + 1)
    ensures res.Success? ==> ChainAt(LItemReader(r.win, rev), LItemSizeReader(r.win, rev), p0, i) + [res.value]
                             == ChainAt(LItemReader(r.win, rev), LItemSizeReader(r.win, rev), p0, i + 1)
    ensures res.Failure? ==> res.error.ReadPastEnd?
  {
    ghost var q := r.pos;
    res := ReadLItem(r, rev);
    if res.Success? {
      ChainAtStep(LItemReader(r.win, rev), LItemSizeReader(r.win, rev), p0, i, q, res.value);
    }
  }

  /** `NrLItems` length items (none when the count is not positive). */
  method ReadLItems(r: ByteReader, rev: int, n: int) returns (res: Result<seq<LItem>>)
    modifies r
    ensures res.Success? ==> r.pos == ChainPos(LItemSizeReader(r.win, rev), old(r.pos), Count(n))
    ensures res.Success? ==> res.value == ChainAt(LItemReader(r.win, rev), LItemSizeReader(r.win, rev), old(r.pos), Count(n))
    ensures res.Failure? ==> res.error.ReadPastEnd?
  {
    ghost var p0 := r.pos;
    var acc: seq<LItem> := [];
    var i := 0;
    while i < Count(n)
      invariant 0 <= i <= Count(n)
      invariant r.pos == ChainPos(LItemSizeReader(r.win, rev), p0, i)
      invariant acc == ChainAt(LItemReader(r.win, rev), LItemSizeReader(r.win, rev), p0, i)
    {
      var x :- ReadNextLItem(r, rev, p0, i);
      acc := acc + [x];
      i := i + 1;
    }
    res := Success(acc);
  }

  // ---------------------------------------------------------------------
  // ReadResultHeader.
  // ---------------------------------------------------------------------

  datatype ResultHeaderRec = ResultHeaderRec(head: ResultHead, nrLItems: int, lItems: seq<LItem>)

  /** Where the length-item count of the header at `p` is stored. */
  function LItemCountPos(p: int, rev: int): int { p + ResultHeadSize(rev) }

  function ResultHeaderAt(w: Window, p: int, rev: int): ResultHeaderRec
  {
    var c := LItemCountPos(p, rev);
    var n := w.I32At(c);
    ResultHeaderRec(ResultHeadAt(w, p, rev), n, ChainAt(LItemReader(w, rev), LItemSizeReader(w, rev), c + 4, Count(n)))
  }

  /** Where the header at `p` ends: after its last length item. */
  function ResultHeaderEnd(w: Window, p: int, rev: int): int
  {
    var c := LItemCountPos(p, rev);
    ChainPos(LItemSizeReader(w, rev), c + 4, Count(w.I32At(c)))
  }

  /** ReadResultHeader. */
  method ReadResultHeader(r: ByteReader, rev: int) returns (res: Result<ResultHeaderRec>)
    modifies r
    ensures res.Success? ==> r.pos == ResultHeaderEnd(r.win, old(r.pos), rev) && res.value == ResultHeaderAt(r.win, old(r.pos), rev)
    ensures res.Failure? ==> res.error.ReadPastEnd?
  {
    ghost var p := r.pos;
    var head :- ReadResultHead(r, rev);
    assert r.pos == LItemCountPos(p, rev);
    var n :- r.ReadInteger();
    var lItems :- ReadLItems(r, rev, n);
    res := Success(ResultHeaderRec(head, n, lItems));
  }

  // ---------------------------------------------------------------------
  // Properties.
  // ---------------------------------------------------------------------

  /**
   * The size of a quality item in each layout: 74 bytes before revision
   * 35 and 110 up to 38; in the current layout 112 bytes, 120 once the
   * nominal length is stored (above 112) and 196 where the grade code is
   * text (in the revisions of the grade-code gate).
   */
  lemma QItemSizes(rev: int)
    ensures rev <= 34 ==> QItemSize(rev) == 74
    ensures 35 <= rev <= 38 ==> QItemSize(rev) == 110
    ensures 39 <= rev <= 112 ==> QItemSize(rev) == 112
    ensures (113 <= rev <= 137 || 500 <= rev <= 517) ==> QItemSize(rev) == 120
    ensures (138 <= rev < 500 || rev > 517) ==> QItemSize(rev) == 196
  {
  }

  /** Four bytes read unsigned and read signed hold the same 32 bits. */
  lemma SignedSameBits(w: Window, q: int)
    ensures Uint32Of(w.U32At(q)) == Uint32Of(w.I32At(q))
  {
    assert w.ByteAt(q) < 0x100 && w.ByteAt(q + 1) < 0x100 && w.ByteAt(q + 2) < 0x100 && w.ByteAt(q + 3) < 0x100;
    assert w.U16At(q) < 0x1_0000 && w.U16At(q + 2) < 0x1_0000;
    assert w.U32At(q) < 0x1_0000_0000;
  }

  /**
   * The result header reads the option flags unsigned (readCardinal) where
   * a solution record reads them signed (readInteger); as sets of options
   * the two readings of the same bytes agree, adjustment included.
   */
  lemma HeaderFlagsAsSolutionFlags(w: Window, p: int, rev: int, solType: int, e: int)
    ensures IsInSet(ResultFlagsAt(w, p, rev, solType).0, e) == IsInSet(OptFlagsAt(w, p, rev, solType).0, e)
    ensures IsInSet(ResultFlagsAt(w, p, rev, solType).1, e) == IsInSet(OptFlagsAt(w, p, rev, solType).1, e)
  {
    SignedSameBits(w, p);
    SignedSameBits(w, p + OptFlagsSize(rev));
  }

  /** Every width item takes at least its 32 bytes of values. */
  lemma WItemSizeAtLeast(w: Window, rev: int)
    ensures forall q :: WItemSizeReader(w, rev)(q) >= 32
  {
  }

  /** Every length item takes at least its head and its tail. */
  lemma LItemSizeAtLeast(w: Window, rev: int)
    ensures forall q :: LItemSizeReader(w, rev)(q) >= LItemHeadSize(rev) + LItemTailSize
  {
    forall q
      ensures LItemSizeReader(w, rev)(q) >= LItemHeadSize(rev) + LItemTailSize
    {
      WItemSizeAtLeast(w, rev);
      ChainPosAtLeast(WItemSizeReader(w, rev), WItemsPos(q, rev), NrWItemsAt(w, q, rev), 0, 0);
    }
  }

  /** Length item `i` of a chain of `n` from `c`: where it is decoded, and that it lies inside the chain. */
  lemma LItemChainLayout(w: Window, c: int, rev: int, n: nat, i: nat)
    requires i < n
    ensures var q := ChainPos(LItemSizeReader(w, rev), c, i);
            && ChainAt(LItemReader(w, rev), LItemSizeReader(w, rev), c, n)[i] == LItemAt(w, q, rev)
            && c + i * (LItemHeadSize(rev) + LItemTailSize) <= q
            && q + LItemSizeAt(w, q, rev) <= ChainPos(LItemSizeReader(w, rev), c, n)
  {
    LItemSizeAtLeast(w, rev);
    ChainLayout(LItemReader(w, rev), LItemSizeReader(w, rev), c, n, i, LItemHeadSize(rev) + LItemTailSize);
  }

  /**
   * Length item `i` of the header is the one decoded where the items
   * before it end; it starts at least `i` minimal items after the count
   * and ends no later than the header.
   */
  lemma LItemsLayout(w: Window, p: int, rev: int, i: nat)
    requires i < Count(ResultHeaderAt(w, p, rev).nrLItems)
    ensures var c := LItemCountPos(p, rev) + 4;
            var q := ChainPos(LItemSizeReader(w, rev), c, i);
            && ResultHeaderAt(w, p, rev).lItems[i] == LItemAt(w, q, rev)
            && c + i * (LItemHeadSize(rev) + LItemTailSize) <= q
            && q + LItemSizeAt(w, q, rev) <= ResultHeaderEnd(w, p, rev)
  {
    var c, n := LItemCountPos(p, rev) + 4, Count(ResultHeaderAt(w, p, rev).nrLItems);
    assert ResultHeaderAt(w, p, rev).lItems == ChainAt(LItemReader(w, rev), LItemSizeReader(w, rev), c, n);
    LItemChainLayout(w, c, rev, n, i);
  }
}
