/**
 * The top level of the decoder: ReadBRES32Data, which reads a revision-34-or-later
 * result file after its initial information, and readBres, which reads the
 * initial information and dispatches on the revision.
 *
 * Each stage of ReadBRES32Data is a method proved against a function on
 * the window that states what that stage decodes and where it ends; the
 * whole record is the composition of those functions.
 */
module Bres {
  import opened Wrappers
  import opened Bytes
  import opened Reader
  import opened Arrays
  import opened BresDefs
  import opened Revision
  import opened Header
  import opened BoardRecord
  import opened Bd
  import opened Solution
  import opened Rules
  import opened Edger
  import opened ResultHeader
  import opened Corrections

  // ---------------------------------------------------------------------
  // The records.
  // ---------------------------------------------------------------------

  /** The result status, the result number, the result header and the size of the main header that follows it. */
  datatype Bres32Head = Bres32Head(rStatus: int, rNr: int, resultHeader: ResultHeaderRec, mHdrSize: int)

  /** What comes before the solutions: the head, the board and the BD block. */
  datatype Bres32Front = Bres32Front(head: Bres32Head, board: OptBoardRec, bd: BD)

  /** The thickness, width and grade tables, each after its count. */
  datatype RuleTables = RuleTables(nrT: int, thickns: seq<DimRule>, nrW: int, widths: seq<DimRule>, nrQ: int, grades: seq<GradeRec>)

  /** The grade indices, the memo and the tables. */
  datatype Bres32Tables = Bres32Tables(grdInd: seq<int>, memo: seq<uint8>, rules: RuleTables)

  /** What comes after the BD block: the solutions, the tables and the edger solution (`{}` in the source when there is none). */
  datatype Bres32Back = Bres32Back(grdSol: seq<OptSolution>, tables: Bres32Tables, edgSol: Option<EdgSol>)

  datatype Bres32 = Bres32(revNr: int, front: Bres32Front, back: Bres32Back)

  // ---------------------------------------------------------------------
  // The head: RStatus, RNr, ReadResultHeader, MHdrSize and its skip.
  // ---------------------------------------------------------------------

  /** Where the main header's size is stored. */
  function MHdrSizePos(w: Window, p: int, rev: int): int { ResultHeaderEnd(w, p + 5, rev) }

  function Bres32HeadAt(w: Window, p: int, rev: int): Bres32Head
  {
    Bres32Head(w.U8At(p), w.I32At(p + 1), ResultHeaderAt(w, p + 5, rev), w.I32At(MHdrSizePos(w, p, rev)))
  }

  /** Where the board starts: the main header is skipped by its stored size. */
  function Bres32HeadEnd(w: Window, p: int, rev: int): int
  {
    MHdrSizePos(w, p, rev) + 4 + w.I32At(MHdrSizePos(w, p, rev))
  }

  method ReadBres32Head(r: ByteReader, rev: int) returns (res: Result<Bres32Head>)
    modifies r
    ensures res.Success? ==> res.value == Bres32HeadAt(r.win, old(r.pos), rev) && r.pos == Bres32HeadEnd(r.win, old(r.pos), rev)
    ensures res.Failure? ==> res.error.ReadPastEnd?
  {
    ghost var p := r.pos;
    var rStatus :- r.ReadByte();
    var rNr :- r.ReadInteger();
    var resultHeader :- ReadResultHeader(r, rev);
    var mHdrSize :- r.ReadInteger();
    r.IncOffset(mHdrSize);
    res := Success(Bres32Head(rStatus, rNr, resultHeader, mHdrSize));
  }

  // ---------------------------------------------------------------------
  // The board: ReadOptBoardRecFileStream, the ManualGrade repack, BInfoSize and its skip.
  // ---------------------------------------------------------------------

  function BoardStageAt(w: Window, q: int, rev: int, mHdrSize: int): Result<OptBoardRec>
  {
    match OptBoardRecAt(w, q, rev, mHdrSize)
    case Failure(e) => Failure(e)
    case Success(b) => Success(RepackBoard(b, rev))
  }

  /** Where the BD block's size is stored: after the board and the batch information it skips. */
  function BoardStageEnd(w: Window, q: int, rev: int, mHdrSize: int): int
  {
    var e := OptBoardRecEnd(w, q, rev, mHdrSize);
    e + 4 + w.I32At(e)
  }

  method ReadBoardStage(r: ByteReader, rev: int, mHdrSize: int) returns (res: Result<OptBoardRec>)
    modifies r
    ensures res.Success? ==> res == BoardStageAt(r.win, old(r.pos), rev, mHdrSize) && r.pos == BoardStageEnd(r.win, old(r.pos), rev, mHdrSize)
    ensures res.Failure? ==> res.error.ReadPastEnd? || res.error.InvalidArrayLength? || res == BoardStageAt(r.win, old(r.pos), rev, mHdrSize)
  {
    var board :- ReadOptBoardRec(r, rev, mHdrSize);
    var bInfoSize :- r.ReadInteger();
    r.IncOffset(bInfoSize);
    res := Success(RepackBoard(board, rev));
  }

  // ---------------------------------------------------------------------
  // The BD block, read through a reader of its own over BDSize bytes.
  // ---------------------------------------------------------------------

  /** The window the BD block at `d` is decoded in: `BDSize` bytes after its size. */
  function BdWindow(w: Window, d: int): Window { Window(w.data, w.base + d + 4, w.I32At(d)) }

  function BdBlockAt(w: Window, d: int, rev: int): BD { BdAt(BdWindow(w, d), 0, rev) }

  /** Where the solutions start: the outer reader moves over `BDSize` bytes, whatever readBD took. */
  function BdBlockEnd(w: Window, d: int): int { d + 4 + w.I32At(d) }

  method ReadBdBlock(r: ByteReader, rev: int) returns (res: Result<BD>)
    modifies r
    ensures res.Success? ==> res.value == BdBlockAt(r.win, old(r.pos), rev) && r.pos == BdBlockEnd(r.win, old(r.pos))
    ensures res.Failure? ==> res.error.ReadPastEnd?
  {
    ghost var d := r.pos;
    var bdSize :- r.ReadInteger();
    var offset := r.GetOffset();
    var r2 := new ByteReader(r.win.data, offset, bdSize);
    assert r2.win == BdWindow(r.win, d);
    var bd :- ReadBD(r2, rev);
    assert bd == BdBlockAt(r.win, d, rev);
    r.IncOffset(bdSize);
    res := Success(bd);
  }

  // ---------------------------------------------------------------------
  // Everything before the solutions.
  // ---------------------------------------------------------------------

  /** Files before revision 82 have the first and last slices of their defects set. */
  function SliceStage(b: OptBoardRec, rev: int): (res: Result<OptBoardRec>)
    ensures rev >= 82 ==> res == Success(b)
    ensures rev < 82 ==> res == BoardSlicesFixed(b)
  {
    if rev < 82 then BoardSlicesFixed(b) else Success(b)
  }

  function Bres32FrontAt(w: Window, p: int, rev: int): Result<Bres32Front>
  {
    var head := Bres32HeadAt(w, p, rev);
    var q := Bres32HeadEnd(w, p, rev);
    match BoardStageAt(w, q, rev, head.mHdrSize)
    case Failure(e) => Failure(e)
    case Success(board) =>
      match SliceStage(board, rev)
      case Failure(e) => Failure(e)
      case Success(fixed) => Success(Bres32Front(head, fixed, BdBlockAt(w, BoardStageEnd(w, q, rev, head.mHdrSize), rev)))
  }

  /** Where the solutions start. */
  function Bres32FrontEnd(w: Window, p: int, rev: int): int
  {
    var q := Bres32HeadEnd(w, p, rev);
    BdBlockEnd(w, BoardStageEnd(w, q, rev, Bres32HeadAt(w, p, rev).mHdrSize))
  }

  method ReadBres32Front(r: ByteReader, rev: int) returns (res: Result<Bres32Front>)
    modifies r
    ensures res.Success? ==> res == Bres32FrontAt(r.win, old(r.pos), rev) && r.pos == Bres32FrontEnd(r.win, old(r.pos), rev)
    ensures res.Failure? ==> res.error.ReadPastEnd? || res.error.InvalidArrayLength? || res == Bres32FrontAt(r.win, old(r.pos), rev)
  {
    ghost var p := r.pos;
    var head :- ReadBres32Head(r, rev);
    ghost var q := r.pos;
    var board :- ReadBoardStage(r, rev, head.mHdrSize);
    ghost var d := r.pos;
    var bd :- ReadBdBlock(r, rev);
    if rev < 82 {
      var fixed :- FixDefectSlices(board);
      board := fixed;
    }
    res := Success(Bres32Front(head, board, bd));
  }

  // ---------------------------------------------------------------------
  // The solutions.
  // ---------------------------------------------------------------------

  /** One solution as the loop stores it: read, then given its grading intervals when it is older than revision 73. */
  function SolReader(w: Window, rev: int): int -> OptSolution { q => WithLegacyGrading(OptSolutionAt(w, q, rev), rev) }
  function SolSizeReader(w: Window, rev: int): int -> int { q => OptSolutionEnd(w, q, rev) - q }

  function SolutionsAt(w: Window, s0: int, rev: int, n: nat): (sols: seq<OptSolution>)
    ensures |sols| == n
  {
    ChainAt(SolReader(w, rev), SolSizeReader(w, rev), s0, n)
  }

  function SolutionsEnd(w: Window, s0: int, rev: int, n: nat): int
  {
    ChainPos(SolSizeReader(w, rev), s0, n)
  }

  /** One solution of the loop: ReadOneOptSolution, then the grading intervals of old files. */
  method ReadStoredSolution(r: ByteReader, rev: int) returns (res: Result<OptSolution>)
    modifies r
    ensures res.Success? ==> res.value == SolReader(r.win, rev)(old(r.pos)) && r.pos == old(r.pos) + SolSizeReader(r.win, rev)(old(r.pos))
    ensures res.Failure? ==> res.error.ReadPastEnd?
  {
    var sol :- ReadOneOptSolution(r, rev);
    res := Success(WithLegacyGrading(sol, rev));
  }

  /** The solution where a chain of `i` of them ends: the chain grows by one, and the edging flag with it. */
  method ReadNextSolution(r: ByteReader, rev: int, ghost s0: int, ghost i: nat) returns (res: Result<OptSolution>)
    modifies r
    requires r.pos == SolutionsEnd(r.win, s0, rev, i)
    ensures res.Success? ==> r.pos == SolutionsEnd(r.win, s0, rev, i + 1)
    ensures res.Success? ==> SolutionsAt(r.win, s0, rev, i) + [res.value] == SolutionsAt(r.win, s0, rev, i + 1)
    ensures res.Failure? ==> res.error.ReadPastEnd?
  {
    ghost var q := r.pos;
    var sol :- ReadStoredSolution(r, rev);
    ChainAtStep(SolReader(r.win, rev), SolSizeReader(r.win, rev), s0, i, q, sol);
    res := Success(sol);
  }

  /** The edging flag of a run of solutions grows with the run. */
  lemma AnyEdgingAppend(sols: seq<OptSolution>, s: OptSolution)
    ensures AnyEdging(sols + [s]) <==> AnyEdging(sols) || IsEdgingSolType(s.body.head.solType)
  {
    if IsEdgingSolType(s.body.head.solType) {
      assert (sols + [s])[|sols|] == s;
    }
    if AnyEdging(sols) {
      var k :| 0 <= k < |sols| && IsEdgingSolType(sols[k].body.head.solType);
      assert (sols + [s])[k] == sols[k];
    }
  }

  /** `HasEdgingSol` after one more solution: set when it trims, edges or is upside down. */
  method NoteEdging(hasEdgingSol: bool, sols: seq<OptSolution>, sol: OptSolution) returns (flag: bool)
    requires hasEdgingSol <==> AnyEdging(sols)
    ensures flag <==> AnyEdging(sols + [sol])
  {
    AnyEdgingAppend(sols, sol);
    flag := hasEdgingSol;
    if IsEdgingSolType(sol.body.head.solType) {
      flag := true;
    }
  }

  /** The loop over the solutions, with `HasEdgingSol` set when one of them trims or edges. */
  method ReadSolutions(r: ByteReader, rev: int, n: nat) returns (res: Result<(seq<OptSolution>, bool)>)
    modifies r
    ensures res.Success? ==> r.pos == SolutionsEnd(r.win, old(r.pos), rev, n)
    ensures res.Success? ==> res.value.0 == SolutionsAt(r.win, old(r.pos), rev, n) && (res.value.1 <==> AnyEdging(res.value.0))
    ensures res.Failure? ==> res.error.ReadPastEnd?
  {
    ghost var s0 := r.pos;
    var sols: seq<OptSolution> := [];
    var hasEdgingSol := false;
    var i := 0;
    while i < n
      invariant 0 <= i <= n
      invariant r.pos == SolutionsEnd(r.win, s0, rev, i)
      invariant sols == SolutionsAt(r.win, s0, rev, i)
      invariant hasEdgingSol <==> AnyEdging(sols)
    {
      var sol :- ReadNextSolution(r, rev, s0, i);
      hasEdgingSol := NoteEdging(hasEdgingSol, sols, sol);
      sols := sols + [sol];
      i := i + 1;
    }
    res := Success((sols, hasEdgingSol));
  }

  // ---------------------------------------------------------------------
  // The grade indices, the memo and the tables.
  // ---------------------------------------------------------------------

  /** Where the thickness count is stored: after the grade indices and the memo of `memoLen` characters. */
  function RulesPos(t0: int, rev: int, memoLen: nat): int { t0 + 4 * GrdIndLen(rev) + memoLen + 1 }

  /** A count at `b` and the dimension rules after it. */
  function DimTableAt(w: Window, b: int, rev: int, he: bool): (int, seq<DimRule>)
  {
    (w.I32At(b), DimRulesAt(w, b + 4, rev, he, Count(w.I32At(b))))
  }

  function DimTableEnd(w: Window, b: int, rev: int, he: bool): int
  {
    b + 4 + Count(w.I32At(b)) * DimRuleSize(rev, he)
  }

  /** A count at `d` and the grade records after it. */
  function GradeTableAt(w: Window, d: int, rev: int): (int, seq<GradeRec>)
  {
    (w.I32At(d), GradeRecsAt(w, d + 4, rev, Count(w.I32At(d))))
  }

  function GradeTableEnd(w: Window, d: int, rev: int): int
  {
    d + 4 + Count(w.I32At(d)) * GradeRecSize(rev)
  }

  /** The thickness table at `b`, the width table after it, the grade table after that. */
  function RuleTablesAt(w: Window, b: int, rev: int, he: bool): RuleTables
  {
    var c := DimTableEnd(w, b, rev, he);
    var t, wd, g := DimTableAt(w, b, rev, he), DimTableAt(w, c, rev, he), GradeTableAt(w, DimTableEnd(w, c, rev, he), rev);
    RuleTables(t.0, t.1, wd.0, wd.1, g.0, g.1)
  }

  function RuleTablesEnd(w: Window, b: int, rev: int, he: bool): int
  {
    GradeTableEnd(w, DimTableEnd(w, DimTableEnd(w, b, rev, he), rev, he), rev)
  }

  /** A count and the dimension rules after it. */
  method ReadCountedDimRules(r: ByteReader, rev: int, he: bool) returns (res: Result<(int, seq<DimRule>)>)
    modifies r
    ensures res.Success? ==> res.value == DimTableAt(r.win, old(r.pos), rev, he) && r.pos == DimTableEnd(r.win, old(r.pos), rev, he)
    ensures res.Failure? ==> res.error.ReadPastEnd?
  {
    var n :- r.ReadInteger();
    var rules :- ReadDimRules(r, rev, he, n);
    res := Success((n, rules));
  }

  /** A count and the grade records after it. */
  method ReadCountedGradeRecs(r: ByteReader, rev: int) returns (res: Result<(int, seq<GradeRec>)>)
    modifies r
    ensures res.Success? ==> res.value == GradeTableAt(r.win, old(r.pos), rev) && r.pos == GradeTableEnd(r.win, old(r.pos), rev)
    ensures res.Failure? ==> res.error.ReadPastEnd?
  {
    var n :- r.ReadInteger();
    var grades :- ReadGradeRecs(r, rev, n);
    res := Success((n, grades));
  }

  method ReadRuleTables(r: ByteReader, rev: int, he: bool) returns (res: Result<RuleTables>)
    modifies r
    ensures res.Success? ==> res.value == RuleTablesAt(r.win, old(r.pos), rev, he) && r.pos == RuleTablesEnd(r.win, old(r.pos), rev, he)
    ensures res.Failure? ==> res.error.ReadPastEnd?
  {
    var thickns :- ReadCountedDimRules(r, rev, he);
    var widths :- ReadCountedDimRules(r, rev, he);
    var grades :- ReadCountedGradeRecs(r, rev);
    res := Success(RuleTables(thickns.0, thickns.1, widths.0, widths.1, grades.0, grades.1));
  }

  function Bres32TablesAt(w: Window, t0: int, rev: int, memoLen: nat, he: bool): Bres32Tables
  {
    Bres32Tables(I32sAt(w, t0, GrdIndLen(rev)), w.Slice(t0 + 4 * GrdIndLen(rev), memoLen + 1),
                 RuleTablesAt(w, RulesPos(t0, rev, memoLen), rev, he))
  }

  function Bres32TablesEnd(w: Window, t0: int, rev: int, memoLen: nat, he: bool): int
  {
    RuleTablesEnd(w, RulesPos(t0, rev, memoLen), rev, he)
  }

  /** The grade indices, the memo (a short string of `memoLen` characters) and the three tables. */
  method ReadBres32Tables(r: ByteReader, rev: int, memoLen: nat, he: bool) returns (res: Result<Bres32Tables>)
    modifies r
    ensures res.Success? ==> res.value == Bres32TablesAt(r.win, old(r.pos), rev, memoLen, he)
                             && r.pos == Bres32TablesEnd(r.win, old(r.pos), rev, memoLen, he)
    ensures res.Failure? ==> res.error.ReadPastEnd?
  {
    ghost var t0 := r.pos;
    var grdInd :- ReadGrdInd(r, rev);
    var memo :- r.ReadShortString(memoLen);
    assert r.pos == RulesPos(t0, rev, memoLen);
    var rules :- ReadRuleTables(r, rev, he);
    res := Success(Bres32Tables(grdInd, memo, rules));
  }

  // ---------------------------------------------------------------------
  // The raw widths of old solutions.
  // ---------------------------------------------------------------------

  /** Before revision 71 the first NrTWQ solutions take the raw width of their width rule. */
  function RawWStage(sols: seq<OptSolution>, widths: seq<DimRule>, rev: int, nrTWQ: int): Result<seq<OptSolution>>
    requires Count(nrTWQ) <= |sols|
  {
    if rev < 71 then RawWFixed(sols, widths, Count(nrTWQ)) else Success(sols)
  }

  // ---------------------------------------------------------------------
  // The edger solution.
  // ---------------------------------------------------------------------

  /**
   * The edger solution after the tables at `e`: stored only in the files
   * StoresEdgerBlock names, and only when its size can be read and is
   * positive; it is decoded in a window of that size.
   */
  function EdgerAt(w: Window, e: int, rev: int): Option<EdgSol>
  {
    if StoresEdgerBlock(rev) && w.Within(e, 4) && w.I32At(e) > 0
    then Some(EdgSolAt(Window(w.data, w.base + e + 4, w.I32At(e)), 0))
    else None
  }

  /**
   * Where the reader stands after the edger block at `e`: past the size and
   * the block it declares, past the size alone when that is not positive,
   * and where it was when the size cannot be read or the file stores none.
   */
  function EdgerEnd(w: Window, e: int, rev: int): int
  {
    if !StoresEdgerBlock(rev) || !w.Within(e, 4) then e
    else if w.I32At(e) <= 0 then e + 4
    else e + 4 + w.I32At(e)
  }

  /** A size that cannot be read counts as 0: the exception of the read is caught. */
  method ReadEdgerBlock(r: ByteReader, rev: int) returns (res: Result<Option<EdgSol>>)
    modifies r
    ensures res.Success? ==> res.value == EdgerAt(r.win, old(r.pos), rev) && r.pos == EdgerEnd(r.win, old(r.pos), rev)
    ensures res.Failure? ==> res.error.ReadPastEnd? && EdgerAt(r.win, old(r.pos), rev).Some? && r.pos == old(r.pos) + 4
  {
    if !StoresEdgerBlock(rev) {
      return Success(None);
    }
    var edgSolSize := 0;
    var size := r.ReadInteger();
    if size.Success? {
      edgSolSize := size.value;
    }
    if edgSolSize <= 0 {
      return Success(None);
    }
    var offset := r.GetOffset();
    var r3 := new ByteReader(r.win.data, offset, edgSolSize);
    var edgSol :- ReadEdgSol(r3);
    r.IncOffset(edgSolSize);
    res := Success(Some(edgSol));
  }

  // ---------------------------------------------------------------------
  // Everything after the BD block.
  // ---------------------------------------------------------------------

  function Bres32BackAt(w: Window, s0: int, rev: int, memoLen: nat, nrTWQ: int): Result<Bres32Back>
  {
    var n := SolutionCount(rev, nrTWQ);
    var sols := SolutionsAt(w, s0, rev, n);
    var t0 := SolutionsEnd(w, s0, rev, n);
    var tables := Bres32TablesAt(w, t0, rev, memoLen, AnyEdging(sols));
    match RawWStage(sols, tables.rules.widths, rev, nrTWQ)
    case Failure(e) => Failure(e)
    case Success(fixed) => Success(Bres32Back(fixed, tables, EdgerAt(w, Bres32TablesEnd(w, t0, rev, memoLen, AnyEdging(sols)), rev)))
  }

  method ReadBres32Back(r: ByteReader, rev: int, memoLen: nat, nrTWQ: int) returns (res: Result<Bres32Back>)
    modifies r
    ensures res.Success? ==> res == Bres32BackAt(r.win, old(r.pos), rev, memoLen, nrTWQ)
    ensures res.Failure? ==> res.error.ReadPastEnd? || res == Bres32BackAt(r.win, old(r.pos), rev, memoLen, nrTWQ)
  {
    ghost var s0 := r.pos;
    var n := SolutionCount(rev, nrTWQ);
    var solsAndFlag :- ReadSolutions(r, rev, n);
    var sols, hasEdgingSol := solsAndFlag.0, solsAndFlag.1;
    var tables :- ReadBres32Tables(r, rev, memoLen, hasEdgingSol);
    if rev < 71 {
      var fixed :- FixRawW(sols, tables.rules.widths, Count(nrTWQ));
      sols := fixed;
    }
    var edgSol :- ReadEdgerBlock(r, rev);
    res := Success(Bres32Back(sols, tables, edgSol));
  }

  // ---------------------------------------------------------------------
  // ReadBRES32Data.
  // ---------------------------------------------------------------------

  /** The whole record of a file of revision `rev` whose data starts at `p`. */
  function Bres32At(w: Window, p: int, rev: int, memoLen: nat): Result<Bres32>
  {
    match Bres32FrontAt(w, p, rev)
    case Failure(e) => Failure(e)
    case Success(front) =>
      match Bres32BackAt(w, Bres32FrontEnd(w, p, rev), rev, memoLen, front.bd.counts.nrTWQ)
      case Failure(e) => Failure(e)
      case Success(back) => Success(Bres32(rev, front, back))
  }

  /**
   * ReadBRES32Data. A result is what the stages decode; a failure is a
   * read past the end or the failure the stages' functions name (a side
   * with fewer defects than defect informations, a solution naming no width
   * rule, a board the main header cannot be read for).
   */
  method ReadBRES32Data(r: ByteReader, rev: int, memoLen: nat) returns (res: Result<Bres32>)
    modifies r
    ensures res.Success? ==> res == Bres32At(r.win, old(r.pos), rev, memoLen) && res.value.revNr == rev
    ensures res.Failure? ==> res.error.ReadPastEnd? || res.error.InvalidArrayLength? || res == Bres32At(r.win, old(r.pos), rev, memoLen)
  {
    var front :- ReadBres32Front(r, rev);
    var back :- ReadBres32Back(r, rev, memoLen, front.bd.counts.nrTWQ);
    res := Success(Bres32(rev, front, back));
  }

  // ---------------------------------------------------------------------
  // readBres.
  // ---------------------------------------------------------------------

  /**
   * What readBres gives back: `{}` for a revision it does not read, the
   * BRES32 record with the batch information of revisions above 110 and
   * the board's header as MainHeader, or the board of revisions 21 to 33.
   */
  datatype BresFile =
    | NoResult
    | Bres32File(data: Bres32, batchInfo: Option<BatchInfo>, mainHeader: Option<MainHeader>)
    | BoardFile(board: OptBoardRec)

  /** `res.Board.Header`: missing for a board the file does not hold. */
  function MainHeaderOf(b: OptBoardRec): (h: Option<MainHeader>)
    ensures h.Some? <==> b.OptBoardRec?
  {
    if b.OptBoardRec? then Some(b.back.header) else None
  }

  function BatchAt(w: Window, p: int, rev: Option<int>): Option<BatchInfo>
  {
    if Above(rev, 110) then Some(BatchInfoAt(w, p)) else None
  }

  /** The board of a file of revisions 21 to 33, as `BoardFile`. */
  function BoardFileAt(w: Window, q: int, rev: int): Result<BresFile>
  {
    match OptBoardRecAt(w, q, rev, 0)
    case Failure(e) => Failure(e)
    case Success(board) => Success(BoardFile(board))
  }

  /**
   * The BRES32 branch of readBres: ReadBRES32Data, then the batch
   * information and the board's header attached to the record.
   */
  method ReadBres32File(r: ByteReader, rev: int, memoLen: nat, batchInfo: Option<BatchInfo>) returns (res: Result<BresFile>)
    modifies r
    ensures res.Success? ==> res.value.Bres32File? && res.value.data.revNr == rev && res.value.batchInfo == batchInfo
    ensures res.Success? ==> res.value.mainHeader == MainHeaderOf(res.value.data.front.board)
  {
    var bres :- ReadBRES32Data(r, rev, memoLen);
    res := Success(Bres32File(bres, batchInfo, MainHeaderOf(bres.front.board)));
  }

  /** The batch information of revisions above 110, then the dispatch on the revision. */
  method ReadBresBody(r: ByteReader, rev: Option<int>, memoLen: nat) returns (res: Result<BresFile>)
    modifies r
    ensures !Above(rev, 20) ==> res == Success(NoResult)
    ensures Above(rev, 20) && !Above(rev, 33) && res.Success? ==> res == BoardFileAt(r.win, old(r.pos), rev.value)
    ensures Above(rev, 20) && !Above(rev, 33) && res.Failure? ==> res.error.ReadPastEnd? || res.error.InvalidArrayLength? || res == BoardFileAt(r.win, old(r.pos), rev.value)
    ensures Above(rev, 33) && res.Success? ==> res.value.Bres32File? && res.value.data.revNr == rev.value
    ensures Above(rev, 33) && res.Success? ==> res.value.batchInfo == BatchAt(r.win, old(r.pos), rev)
    ensures Above(rev, 33) && res.Success? ==> res.value.mainHeader == MainHeaderOf(res.value.data.front.board)
  {
    var batchInfo: Option<BatchInfo> := None;
    if Above(rev, 110) {
      var b :- ReadBatchInfo(r);
      batchInfo := Some(b);
    }
    if Above(rev, 33) {
      res := ReadBres32File(r, rev.value, memoLen, batchInfo);
    } else if Above(rev, 20) {
      var board :- ReadOptBoardRec(r, rev.value, 0);
      res := Success(BoardFile(board));
    } else {
      res := Success(NoResult);
    }
  }

  /** The initial file information of the buffer can be read and names a known tag. */
  predicate InitialInfoReadable(w: Window)
  {
    && w.Within(0, 1)
    && TagOf(w.U8At(0), w.Slice(1, 7)).Some?
    && w.Within(0, InitialFileInfoSize(w.U8At(0), RevisionAt(w, 0)))
  }

  /** The window over the whole buffer. */
  function Whole(data: seq<uint8>): Window { Window(data, 0, |data|) }

  /** The revision the buffer's initial information names. */
  function FileRevision(data: seq<uint8>): Option<int>
    requires InitialInfoReadable(Whole(data))
  {
    RevisionAt(Whole(data), 0)
  }

  /** Where the data after the initial information starts. */
  function BodyPos(data: seq<uint8>): int
    requires InitialInfoReadable(Whole(data))
  {
    InitialFileInfoSize(Whole(data).U8At(0), FileRevision(data))
  }

  /**
   * readBres over the whole buffer; `memoLen` is the length of the memo's
   * short string. A buffer whose initial information cannot be read fails;
   * otherwise the revision it names decides what comes back.
   */
  method ReadBres(data: seq<uint8>, memoLen: nat) returns (res: Result<BresFile>)
    ensures res.Success? ==> InitialInfoReadable(Whole(data))
    ensures !InitialInfoReadable(Whole(data)) ==> res.Failure? && (res.error.ReadPastEnd? || res.error.UnknownMarker?)
    ensures InitialInfoReadable(Whole(data)) && !Above(FileRevision(data), 20) ==> res == Success(NoResult)
    ensures InitialInfoReadable(Whole(data)) && Above(FileRevision(data), 20) && !Above(FileRevision(data), 33) && res.Success?
      ==> res == BoardFileAt(Whole(data), BodyPos(data), FileRevision(data).value)
    ensures InitialInfoReadable(Whole(data)) && Above(FileRevision(data), 33) && res.Success?
      ==> res.value.Bres32File? && res.value.data.revNr == FileRevision(data).value
          && (res.value.batchInfo.Some? <==> Above(FileRevision(data), 110))
          && res.value.mainHeader == MainHeaderOf(res.value.data.front.board)
  {
    var r := new ByteReader(data, 0, |data|);
    var revision :- ReadInitialFileInfo(r);
    assert r.win == Whole(data) && InitialInfoReadable(Whole(data));
    assert revision == FileRevision(data) && r.pos == BodyPos(data);
    res := ReadBresBody(r, revision, memoLen);
  }
}
