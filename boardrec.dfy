/**
 * `ReadOptBoardRecFileStream`: the whole board record, its parts one after
 * the other. Before revision 33 a descriptor byte comes first, and a
 * descriptor other than 0 or 1 ends the record with nothing decoded.
 *
 * Besides reading past the end, three things make the decoding fail: a
 * thickness head list touching an undefined head, revision 105 (whose
 * header fix names an undeclared variable) and the EndSpy split fix of
 * revisions 115 to 117 and 500 to 502 on a result with splits. Whichever
 * comes first in the record decides.
 */
module BoardRecord {
  import opened Wrappers
  import opened Bytes
  import opened Reader
  import opened Header
  import opened EndSpy
  import opened MoistSpy
  import opened Board
  import opened Slices

  // ---------------------------------------------------------------------
  // The front: geometry, defects, per-slice scans, thickness and end points.
  // ---------------------------------------------------------------------

  datatype BoardFront = BoardFront(geom: BoardGeom, defects: BoardDefects, scans: BoardScans, thickness: BoardThickness, points: BoardPoints)

  /** Where the thickness part at `q` ends: it follows the two head counts stored first. */
  function ThicknessEnd(w: Window, q: int, rev: int): int
  {
    q + 4 + HeadsSize(rev, w.I16At(q)) + (if rev >= 132 then HeadsSize(rev, w.I16At(q + 2)) else 0)
  }

  /** The thickness part, with the end position as a function of the window. */
  method ReadThicknessPart(r: ByteReader, rev: int) returns (res: Result<BoardThickness>)
    modifies r
    ensures res.Success? ==> res == BoardThicknessAt(r.win, old(r.pos), rev) && r.pos == ThicknessEnd(r.win, old(r.pos), rev)
    ensures res.Failure? ==> res.error.ReadPastEnd? || res == BoardThicknessAt(r.win, old(r.pos), rev)
  {
    res := ReadBoardThickness(r, rev);
  }

  /** Where the defects start: after the geometry, which holds the signed slice count first. */
  function DefectsPos(w: Window, g: int, rev: int): int { g + BoardGeomSize(rev, w.I16At(g)) }

  function ScansPos(w: Window, g: int, rev: int): int { BoardDefectsEnd(w, DefectsPos(w, g, rev), rev) }

  function ThicknessPos(w: Window, g: int, rev: int): int { ScansPos(w, g, rev) + BoardScansSize(rev, w.I16At(g)) }

  function PointsPos(w: Window, g: int, rev: int): int { ThicknessEnd(w, ThicknessPos(w, g, rev), rev) }

  function FrontEnd(w: Window, g: int, rev: int): int { PointsPos(w, g, rev) + 8 * PointsPerSide(rev) }

  function BoardFrontAt(w: Window, g: int, rev: int): Result<BoardFront>
  {
    var thickness :- BoardThicknessAt(w, ThicknessPos(w, g, rev), rev);
    Success(BoardFront(BoardGeomAt(w, g, rev), BoardDefectsAt(w, DefectsPos(w, g, rev), rev),
                       BoardScansAt(w, ScansPos(w, g, rev), rev, w.I16At(g)), thickness,
                       RepairedPoints(RawBoardPointsAt(w, PointsPos(w, g, rev), rev))))
  }

  /** Geometry and defects. */
  method ReadGeomDefects(r: ByteReader, rev: int) returns (res: Result<(BoardGeom, BoardDefects)>)
    modifies r
    ensures res.Success? ==> r.pos == ScansPos(r.win, old(r.pos), rev)
    ensures res.Success? ==> res.value == (BoardGeomAt(r.win, old(r.pos), rev), BoardDefectsAt(r.win, DefectsPos(r.win, old(r.pos), rev), rev))
    ensures res.Failure? ==> res.error.ReadPastEnd?
  {
    ghost var g := r.pos;
    var geom :- ReadBoardGeom(r, rev);
    assert r.pos == DefectsPos(r.win, g, rev);
    var defects :- ReadBoardDefects(r, rev);
    res := Success((geom, defects));
  }

  method ReadBoardFront(r: ByteReader, rev: int) returns (res: Result<BoardFront>)
    modifies r
    ensures res.Success? ==> res == BoardFrontAt(r.win, old(r.pos), rev) && r.pos == FrontEnd(r.win, old(r.pos), rev)
    ensures res.Failure? ==> res.error.ReadPastEnd? || res == BoardFrontAt(r.win, old(r.pos), rev)
  {
    ghost var g := r.pos;
    var gd :- ReadGeomDefects(r, rev);
    assert gd.0.np == r.win.I16At(g);
    var scans :- ReadBoardScans(r, rev, gd.0.np);
    assert r.pos == ThicknessPos(r.win, g, rev);
    var thickness :- ReadThicknessPart(r, rev);
    assert r.pos == PointsPos(r.win, g, rev);
    var points :- ReadBoardPoints(r, rev);
    assert r.pos == FrontEnd(r.win, g, rev);
    res := Success(BoardFront(gd.0, gd.1, scans, thickness, points));
  }

  // ---------------------------------------------------------------------
  // The back: header, moisture, EndSpy, MoistSpy, slice data and PLS.
  // ---------------------------------------------------------------------

  datatype BoardBack = BoardBack(header: MainHeader, moisture: BoardMoisture, endSpy: BoardEndSpy, moistSpy: Option<MoistSpyResult>, slices: Option<BoardSlices>, pls: BoardPls)

  /** Where the MoistSpy part at `q` ends: its size follows the sensor count it stores. */
  function MoistSpyEnd(w: Window, q: int, rev: int): int
  {
    q + BoardMoistSpySize(rev, BoardMoistSpyAt(w, q, rev))
  }

  /** The MoistSpy part with its version fixes applied. */
  function FixedMoistSpyAt(w: Window, q: int, rev: int): Option<MoistSpyResult>
  {
    var ms := BoardMoistSpyAt(w, q, rev);
    if ms.Some? then
      MoistSpyAtShaped(w, if HasMsRecSize(rev) then q + 4 else q, rev);
      FixedBoardMoistSpy(ms, rev)
    else None
  }

  /** The MoistSpy part, read and then fixed. */
  method ReadMoistSpyPart(r: ByteReader, rev: int) returns (res: Result<Option<MoistSpyResult>>)
    modifies r
    ensures res.Success? ==> r.pos == MoistSpyEnd(r.win, old(r.pos), rev) && res.value == FixedMoistSpyAt(r.win, old(r.pos), rev)
    ensures res.Failure? ==> res.error.ReadPastEnd?
  {
    var ms :- ReadBoardMoistSpy(r, rev);
    if ms.Some? {
      var fixed := FixMoistSpy(ms.value, rev);
      res := Success(Some(fixed));
    } else {
      res := Success(None);
    }
  }

  function MoisturePos(h: int, rev: int, mHdrSize: int): int { h + MainHeaderReadLen(rev, mHdrSize) }

  function EndSpyPos(h: int, rev: int, mHdrSize: int, np: int): int { MoisturePos(h, rev, mHdrSize) + BoardMoistureSize(rev, np) }

  function MoistSpyPos(w: Window, h: int, rev: int, mHdrSize: int, np: int): int { BoardEndSpyEnd(w, EndSpyPos(h, rev, mHdrSize, np), rev) }

  function SlicesPos(w: Window, h: int, rev: int, mHdrSize: int, np: int): int { MoistSpyEnd(w, MoistSpyPos(w, h, rev, mHdrSize, np), rev) }

  function PlsPos(w: Window, h: int, rev: int, mHdrSize: int, np: int): int { BoardSlicesEnd(w, SlicesPos(w, h, rev, mHdrSize, np), rev) }

  function BackEnd(w: Window, h: int, rev: int, mHdrSize: int, np: int): int { BoardPlsEnd(w, PlsPos(w, h, rev, mHdrSize, np), rev) }

  /** Header, moisture and EndSpy, the EndSpy results fixed. */
  function BackHeadAt(w: Window, h: int, rev: int, mHdrSize: int, np: int): Result<(MainHeader, BoardMoisture, BoardEndSpy)>
  {
    if rev == 105 then Failure(UndeclaredName)
    else
      var es := BoardEndSpyAt(w, EndSpyPos(h, rev, mHdrSize, np), rev);
      var results :- FixedEndSpyResults(es.results, rev);
      Success((BoardHeaderAt(w, h, rev, mHdrSize), BoardMoistureAt(w, MoisturePos(h, rev, mHdrSize), rev, np), BoardEndSpy(results, es.image)))
  }

  /** MoistSpy, slice data and PLS. */
  function BackTailAt(w: Window, m: int, rev: int): (Option<MoistSpyResult>, Option<BoardSlices>, BoardPls)
  {
    var s := MoistSpyEnd(w, m, rev);
    (FixedMoistSpyAt(w, m, rev), BoardSlicesAt(w, s, rev), BoardPlsAt(w, BoardSlicesEnd(w, s, rev), rev))
  }

  function BoardBackAt(w: Window, h: int, rev: int, mHdrSize: int, np: int): Result<BoardBack>
  {
    var head :- BackHeadAt(w, h, rev, mHdrSize, np);
    var tail := BackTailAt(w, MoistSpyPos(w, h, rev, mHdrSize, np), rev);
    Success(BoardBack(head.0, head.1, head.2, tail.0, tail.1, tail.2))
  }

  method ReadBackHead(r: ByteReader, rev: int, mHdrSize: int, np: int) returns (res: Result<(MainHeader, BoardMoisture, BoardEndSpy)>)
    modifies r
    ensures res.Success? ==> res == BackHeadAt(r.win, old(r.pos), rev, mHdrSize, np) && r.pos == MoistSpyPos(r.win, old(r.pos), rev, mHdrSize, np)
    ensures res.Failure? ==> res.error.ReadPastEnd? || res == BackHeadAt(r.win, old(r.pos), rev, mHdrSize, np)
  {
    ghost var h := r.pos;
    var header :- ReadBoardHeader(r, rev, mHdrSize);
    assert r.pos == MoisturePos(h, rev, mHdrSize);
    var moisture :- ReadBoardMoisture(r, rev, np);
    assert r.pos == EndSpyPos(h, rev, mHdrSize, np);
    var es :- ReadBoardEndSpy(r, rev);
    assert r.pos == MoistSpyPos(r.win, h, rev, mHdrSize, np);
    var results :- FixEndSpyResults(es.results, rev);
    res := Success((header, moisture, BoardEndSpy(results, es.image)));
  }

  method ReadBackTail(r: ByteReader, rev: int) returns (res: Result<(Option<MoistSpyResult>, Option<BoardSlices>, BoardPls)>)
    modifies r
    ensures res.Success? ==> res.value == BackTailAt(r.win, old(r.pos), rev)
    ensures res.Success? ==> r.pos == BoardPlsEnd(r.win, BoardSlicesEnd(r.win, MoistSpyEnd(r.win, old(r.pos), rev), rev), rev)
    ensures res.Failure? ==> res.error.ReadPastEnd? || res.error.InvalidArrayLength?
    ensures res.Failure? && res.error.InvalidArrayLength? ==> !BoardSlicesArraysOk(r.win, MoistSpyEnd(r.win, old(r.pos), rev), rev)
  {
    var ms :- ReadMoistSpyPart(r, rev);
    var slices :- ReadBoardSlices(r, rev);
    var pls :- ReadBoardPls(r, rev);
    res := Success((ms, slices, pls));
  }

  method ReadBoardBack(r: ByteReader, rev: int, mHdrSize: int, np: int) returns (res: Result<BoardBack>)
    modifies r
    ensures res.Success? ==> res == BoardBackAt(r.win, old(r.pos), rev, mHdrSize, np) && r.pos == BackEnd(r.win, old(r.pos), rev, mHdrSize, np)
    ensures res.Failure? ==> res.error.ReadPastEnd? || res.error.InvalidArrayLength? || res == BoardBackAt(r.win, old(r.pos), rev, mHdrSize, np)
  {
    var head :- ReadBackHead(r, rev, mHdrSize, np);
    var tail :- ReadBackTail(r, rev);
    res := Success(BoardBack(head.0, head.1, head.2, tail.0, tail.1, tail.2));
  }

  // ---------------------------------------------------------------------
  // The record.
  // ---------------------------------------------------------------------

  /** A record whose descriptor byte says it holds no board, or the board. */
  datatype OptBoardRec = NoBoard | OptBoardRec(front: BoardFront, back: BoardBack)

  /** Before revision 33 a descriptor byte other than 0 or 1 means there is no board. */
  predicate SkipsBoard(w: Window, q: int, rev: int) { rev < 33 && w.U8At(q) != 0 && w.U8At(q) != 1 }

  /** Where the geometry starts: after the descriptor byte of revisions before 33. */
  function GeomPos(q: int, rev: int): int { if rev < 33 then q + 1 else q }

  function OptBoardRecAt(w: Window, q: int, rev: int, mHdrSize: int): Result<OptBoardRec>
  {
    if SkipsBoard(w, q, rev) then Success(NoBoard)
    else
      var g := GeomPos(q, rev);
      var front :- BoardFrontAt(w, g, rev);
      var back :- BoardBackAt(w, FrontEnd(w, g, rev), rev, mHdrSize, w.I16At(g));
      Success(OptBoardRec(front, back))
  }

  function OptBoardRecEnd(w: Window, q: int, rev: int, mHdrSize: int): int
  {
    if SkipsBoard(w, q, rev) then q + 1
    else
      var g := GeomPos(q, rev);
      BackEnd(w, FrontEnd(w, g, rev), rev, mHdrSize, w.I16At(g))
  }

  method ReadOptBoardRec(r: ByteReader, rev: int, mHdrSize: int) returns (res: Result<OptBoardRec>)
    modifies r
    ensures res.Success? ==> res == OptBoardRecAt(r.win, old(r.pos), rev, mHdrSize) && r.pos == OptBoardRecEnd(r.win, old(r.pos), rev, mHdrSize)
    ensures res.Failure? ==> res.error.ReadPastEnd? || res.error.InvalidArrayLength? || res == OptBoardRecAt(r.win, old(r.pos), rev, mHdrSize)
  {
    if rev < 33 {
      var descr :- r.ReadByte();
      if descr != 0 && descr != 1 {
        return Success(NoBoard);
      }
    }
    ghost var g := r.pos;
    assert g == GeomPos(old(r.pos), rev);
    var front :- ReadBoardFront(r, rev);
    assert front.geom.np == r.win.I16At(g);
    assert r.pos == FrontEnd(r.win, g, rev);
    var back :- ReadBoardBack(r, rev, mHdrSize, front.geom.np);
    res := Success(OptBoardRec(front, back));
  }
}
