/**
 * The defect lists of a board record: the per-side defect records with
 * their revision corrections, the extended defect information, the
 * combined defects, and the slice search that fills the first and last
 * slice of each defect in older files.
 */
module Defects {
  import opened Wrappers
  import opened Bytes
  import opened Reader
  import opened Arrays
  import opened BresDefs
  import opened Revision

  // ---------------------------------------------------------------------
  // Defect records (ReadDefectsFromStream).
  // ---------------------------------------------------------------------

  /** The centre block written from revision 34. */
  datatype DefectCentre = DefectCentre(xc: int, yc: int, xDiam1: int, xDiam2: int, zVal: int)

  datatype Defect = Defect(
    mainType: int, subType: int, shape: int,
    dl: int, dt: int, x1: int, y1: int, x2: int, y2: int,
    diam: int, area: int, fDist: int, bDist: int,
    centre: Option<DefectCentre>,
    xyc: int, dp: seq<Point>, knotData: seq<int>)

  /** The 23 bytes every revision writes first: three type bytes and ten smallints. */
  const DefectHeadSize: nat := 3 + 10 * 2

  /** The centre block and its vacant word exist from revision 34. */
  function CentreSize(rev: int): nat { if rev > 33 then 6 * 2 else 0 }

  /** Where the point count of a defect starting at `p` is. */
  function PointCountPos(p: int, rev: int): int { p + DefectHeadSize + CentreSize(rev) }

  /** The number of outline points the defect at `p` declares (a smallint, possibly negative). */
  function PointCountAt(w: Window, p: int, rev: int): int { w.I16At(PointCountPos(p, rev)) }

  /** The bytes of the outline that starts at `c`: the point count, `4 * n` bytes of points and 20 knot words. */
  function OutlineSize(w: Window, c: int): nat
  {
    2 + 4 * Count(w.I16At(c)) + 20 * 2
  }

  /** All bytes of the defect at `p`: head, centre and outline. */
  function DefectSize(w: Window, p: int, rev: int): nat
  {
    DefectHeadSize + CentreSize(rev) + OutlineSize(w, PointCountPos(p, rev))
  }

  /** Revisions 99, 100 and above 106 grade blue stain as light or heavy; the others knew only one kind. */
  predicate GradesBlueStain(rev: int) { rev == 99 || rev == 100 || rev > 106 }

  /** The sub type after the correction of older files: blue stain there is always light. */
  function CorrectSubType(rev: int, mainType: int, subType: int): (s: int)
    ensures !GradesBlueStain(rev) && mainType == dtBlueStain.Value() ==> s == dtLight.Value()
    ensures GradesBlueStain(rev) || mainType != dtBlueStain.Value() ==> s == subType
  {
    if !GradesBlueStain(rev) && mainType == dtBlueStain.Value() then dtLight.Value() else subType
  }

  /** Before revision 109 the width of a split meant something else: it is cleared. */
  function CorrectSplitWidth(rev: int, mainType: int, dt: int): (d: int)
    ensures rev < 109 && mainType == dtSplit.Value() ==> d == 0
    ensures rev >= 109 || mainType != dtSplit.Value() ==> d == dt
  {
    if rev < 109 && mainType == dtSplit.Value() then 0 else dt
  }

  /** Types are written one above their value, so that a knot (0) is written as 1. */
  function TypeFromWire(b: int): int { b - 1 }

  /**
   * The first 23 bytes of the defect at `p` with both corrections applied;
   * the centre, the count, the points and the knot words are left empty.
   */
  function DefectHeadAt(w: Window, p: int, rev: int): Defect
  {
    var mainType := TypeFromWire(w.U8At(p));
    Defect(
      mainType, CorrectSubType(rev, mainType, TypeFromWire(w.U8At(p + 1))), TypeFromWire(w.U8At(p + 2)),
      w.I16At(p + 3), CorrectSplitWidth(rev, mainType, w.I16At(p + 5)),
      w.I16At(p + 7), w.I16At(p + 9), w.I16At(p + 11), w.I16At(p + 13),
      w.I16At(p + 15), w.I16At(p + 17), w.I16At(p + 19), w.I16At(p + 21),
      None, 0, [], [])
  }

  function CentreAt(w: Window, p: int): DefectCentre
  {
    DefectCentre(w.I16At(p), w.I16At(p + 2), w.I16At(p + 4), w.I16At(p + 6), w.I16At(p + 8))
  }

  /** The head and, from revision 34, the centre of the defect at `p`. */
  function DefectFrontAt(w: Window, p: int, rev: int): Defect
  {
    DefectHeadAt(w, p, rev).(centre := if rev > 33 then Some(CentreAt(w, p + DefectHeadSize)) else None)
  }

  /** `d` with the outline stored at `c`: the point count, the points and the knot words. */
  function WithOutlineAt(w: Window, c: int, d: Defect): Defect
  {
    var n := w.I16At(c);
    d.(xyc := n, dp := PointsAt(w, c + 2, Count(n)), knotData := I16sAt(w, c + 2 + 4 * Count(n), 20))
  }

  /** The defect at window position `p` as the decoder builds it (types stored one below their wire value). */
  function DefectAt(w: Window, p: int, rev: int): Defect
  {
    WithOutlineAt(w, PointCountPos(p, rev), DefectFrontAt(w, p, rev))
  }

  /** Every decoded defect carries its declared number of points and exactly 20 knot words. */
  lemma DefectShape(w: Window, p: int, rev: int)
    ensures |DefectAt(w, p, rev).dp| == Count(DefectAt(w, p, rev).xyc)
    ensures |DefectAt(w, p, rev).knotData| == 20
    ensures DefectAt(w, p, rev).centre.Some? <==> rev > 33
    ensures DefectSize(w, p, rev) == DefectHeadSize + CentreSize(rev) + 2 + 4 * |DefectAt(w, p, rev).dp| + 40
  {
  }

  /** No decoded defect of a revision without graded blue stain is a heavy blue stain, and no older split has a width. */
  lemma DefectCorrections(w: Window, p: int, rev: int)
    ensures var d := DefectAt(w, p, rev);
      (!GradesBlueStain(rev) && d.mainType == 5 ==> d.subType == 13)
      && (rev < 109 && d.mainType == 1 ==> d.dt == 0)
      && (d.mainType != 5 ==> d.subType == TypeFromWire(w.U8At(p + 1)))
      && (d.mainType != 1 ==> d.dt == w.I16At(p + 5))
  {
  }

  /** The corrections are idempotent: applying either to its own result changes nothing. */
  lemma CorrectionsIdempotent(rev: int, mainType: int, subType: int, dt: int)
    ensures CorrectSubType(rev, mainType, CorrectSubType(rev, mainType, subType)) == CorrectSubType(rev, mainType, subType)
    ensures CorrectSplitWidth(rev, mainType, CorrectSplitWidth(rev, mainType, dt)) == CorrectSplitWidth(rev, mainType, dt)
  {
  }

  /** The type bytes and the ten smallints, with both corrections applied. */
  method ReadDefectHead(r: ByteReader, rev: int) returns (res: Result<Defect>)
    modifies r
    ensures res.Success? ==> r.win.Within(old(r.pos), DefectHeadSize)
    ensures res.Success? ==> r.pos == old(r.pos) + DefectHeadSize && res.value == DefectHeadAt(r.win, old(r.pos), rev)
    ensures res.Failure? ==> !r.win.Within(old(r.pos), DefectHeadSize) && res.error.ReadPastEnd?
  {
    var mainByte :- r.ReadByte();
    var mainType := TypeFromWire(mainByte);
    var subByte :- r.ReadByte();
    // heavy and light blue stain are told apart only in revisions 99, 100 and from 107
    var subType := CorrectSubType(rev, mainType, TypeFromWire(subByte));
    var shapeByte :- r.ReadByte();
    var dl :- r.ReadSmallInt();
    var dtWire :- r.ReadSmallInt();
    // the split width meant something else before revision 109
    var dt := CorrectSplitWidth(rev, mainType, dtWire);
    var x1 :- r.ReadSmallInt();
    var y1 :- r.ReadSmallInt();
    var x2 :- r.ReadSmallInt();
    var y2 :- r.ReadSmallInt();
    var diam :- r.ReadSmallInt();
    var area :- r.ReadSmallInt();
    var fDist :- r.ReadSmallInt();
    var bDist :- r.ReadSmallInt();
    res := Success(Defect(mainType, subType, TypeFromWire(shapeByte), dl, dt, x1, y1, x2, y2, diam, area, fDist, bDist, None, 0, [], []));
  }

  /** The centre block and the vacant word after it. */
  method ReadDefectCentre(r: ByteReader) returns (res: Result<DefectCentre>)
    modifies r
    ensures res.Success? ==> r.win.Within(old(r.pos), 12)
    ensures res.Success? ==> r.pos == old(r.pos) + 12 && res.value == CentreAt(r.win, old(r.pos))
    ensures res.Failure? ==> !r.win.Within(old(r.pos), 12) && res.error.ReadPastEnd?
  {
    var xc :- r.ReadSmallInt();
    var yc :- r.ReadSmallInt();
    var xDiam1 :- r.ReadSmallInt();
    var xDiam2 :- r.ReadSmallInt();
    var zVal :- r.ReadSmallInt();
    var vacant :- r.ReadSmallInt();
    res := Success(DefectCentre(xc, yc, xDiam1, xDiam2, zVal));
  }

  /** The head and, from revision 34, the centre block. */
  method ReadDefectFront(r: ByteReader, rev: int) returns (res: Result<Defect>)
    modifies r
    ensures res.Success? ==> r.win.Within(old(r.pos), DefectHeadSize + CentreSize(rev))
    ensures res.Success? ==> (res.value == DefectFrontAt(r.win, old(r.pos), rev)
      && r.pos == old(r.pos) + DefectHeadSize + CentreSize(rev))
    ensures res.Failure? ==> !r.win.Within(old(r.pos), DefectHeadSize + CentreSize(rev)) && res.error.ReadPastEnd?
  {
    var head :- ReadDefectHead(r, rev);
    var centre: Option<DefectCentre> := None;
    if rev > 33 {
      var ctr :- ReadDefectCentre(r);
      centre := Some(ctr);
    }
    res := Success(head.(centre := centre));
  }

  /** The point count, the points and the 20 knot words, filled into `d`. */
  method ReadDefectOutline(r: ByteReader, d: Defect) returns (res: Result<Defect>)
    modifies r
    ensures res.Success? ==> r.win.Within(old(r.pos), OutlineSize(r.win, old(r.pos)))
    ensures res.Success? ==> (res.value == WithOutlineAt(r.win, old(r.pos), d)
      && r.pos == old(r.pos) + OutlineSize(r.win, old(r.pos)))
    ensures res.Failure? ==> !r.win.Within(old(r.pos), OutlineSize(r.win, old(r.pos))) && res.error.ReadPastEnd?
  {
    var n :- r.ReadSmallInt();
    var dp :- ReadPoints(r, n);
    var knotData :- ReadSmallInts(r, 20);
    res := Success(d.(xyc := n, dp := dp, knotData := knotData));
  }

  method ReadDefect(r: ByteReader, rev: int) returns (res: Result<Defect>)
    modifies r
    ensures res.Success? ==> r.win.Within(old(r.pos), DefectSize(r.win, old(r.pos), rev))
    ensures res.Success? ==> (res.value == DefectAt(r.win, old(r.pos), rev)
      && r.pos == old(r.pos) + DefectSize(r.win, old(r.pos), rev))
    ensures res.Failure? ==> !r.win.Within(old(r.pos), DefectSize(r.win, old(r.pos), rev)) && res.error.ReadPastEnd?
  {
    var front :- ReadDefectFront(r, rev);
    res := ReadDefectOutline(r, front);
  }

  /** Where defect `i` of a run stored back to back from `p` starts: where the one before it ends. */
  function DefectPos(w: Window, p: int, rev: int, i: nat): int
  {
    if i == 0 then p else DefectPos(w, p, rev, i - 1) + DefectSize(w, DefectPos(w, p, rev, i - 1), rev)
  }

  /** The `n` defects stored back to back from `p`. */
  function DefectsAt(w: Window, p: int, rev: int, n: nat): (s: seq<Defect>)
    ensures |s| == n
  {
    if n == 0 then [] else DefectsAt(w, p, rev, n - 1) + [DefectAt(w, DefectPos(w, p, rev, n - 1), rev)]
  }

  /** Reading the defect where the run so far ends extends the run by that defect. */
  lemma DefectsAtStep(w: Window, p: int, rev: int, i: nat, q: int, d: Defect)
    requires q == DefectPos(w, p, rev, i) && d == DefectAt(w, q, rev)
    ensures DefectsAt(w, p, rev, i) + [d] == DefectsAt(w, p, rev, i + 1)
    ensures DefectPos(w, p, rev, i + 1) == q + DefectSize(w, q, rev)
  {
  }

  /** The bytes of the `n` defects stored from `p`. */
  function DefectsSize(w: Window, p: int, rev: int, n: nat): int
  {
    DefectPos(w, p, rev, n) - p
  }

  /** Later defects start no earlier. */
  lemma {:induction false} DefectPosMonotone(w: Window, p: int, rev: int, i: nat, n: nat)
    requires i <= n
    decreases n
    ensures DefectPos(w, p, rev, i) <= DefectPos(w, p, rev, n)
  {
    if i < n {
      DefectPosMonotone(w, p, rev, i, n - 1);
    }
  }

  /** Each defect takes at least 65 bytes: 23 head, 2 count and 40 knot words. */
  lemma {:induction false} DefectsSizeAtLeast(w: Window, p: int, rev: int, n: nat)
    decreases n
    ensures DefectsSize(w, p, rev, n) >= 65 * n
  {
    if n > 0 {
      DefectsSizeAtLeast(w, p, rev, n - 1);
    }
  }

  /**
   * `ReadDefectsFromStream`: `nd` defects (none when `nd` is not positive),
   * element k of the source's 1-based array being element k - 1 here.
   */
  method ReadDefectsFromStream(r: ByteReader, rev: int, nd: int) returns (res: Result<seq<Defect>>)
    modifies r
    ensures res.Success? ==> Count(nd) == 0 || r.win.Within(old(r.pos), DefectsSize(r.win, old(r.pos), rev, Count(nd)))
    ensures res.Success? ==> res.value == DefectsAt(r.win, old(r.pos), rev, Count(nd))
    ensures res.Success? ==> r.pos == old(r.pos) + DefectsSize(r.win, old(r.pos), rev, Count(nd))
    ensures res.Failure? ==> Count(nd) > 0 && !r.win.Within(old(r.pos), DefectsSize(r.win, old(r.pos), rev, Count(nd)))
    ensures res.Failure? ==> res.error.ReadPastEnd?
  {
    ghost var p0 := r.pos;
    var acc: seq<Defect> := [];
    var i := 0;
    while i < Count(nd)
      invariant 0 <= i <= Count(nd)
      invariant acc == DefectsAt(r.win, p0, rev, i)
      invariant r.pos == DefectPos(r.win, p0, rev, i)
      invariant i > 0 ==> r.win.Within(p0, r.pos - p0)
    {
      ghost var q := r.pos;
      var d := ReadDefect(r, rev);
      if d.Failure? {
        DefectsTooLong(r.win, p0, rev, i, Count(nd));
        return Failure(d.error);
      }
      DefectsAtStep(r.win, p0, rev, i, q, d.value);
      acc := acc + [d.value];
      i := i + 1;
    }
    res := Success(acc);
  }

  /** When defect `i` of a run does not fit, neither does the run. */
  lemma DefectsTooLong(w: Window, p: int, rev: int, i: nat, n: nat)
    requires i < n
    requires i > 0 ==> w.Within(p, DefectsSize(w, p, rev, i))
    requires !w.Within(DefectPos(w, p, rev, i), DefectSize(w, DefectPos(w, p, rev, i), rev))
    ensures !w.Within(p, DefectsSize(w, p, rev, n))
  {
    DefectPosMonotone(w, p, rev, i + 1, n);
    DefectPosMonotone(w, p, rev, 0, i);
  }

  // ---------------------------------------------------------------------
  // Extended defect information (ReadExtDefectInfosToStream).
  // ---------------------------------------------------------------------

  /** The component each side of a defect belongs to. */
  datatype CompIx = CompIx(front: int, up: int, rear: int, down: int)

  datatype ExtDefectInfo = ExtDefectInfo(firstSlc: int, lastSlc: int, compIx: CompIx)

  /** Component indices widen from bytes to words above 138 (legacy) and 526 (current). */
  predicate WideCompIx(rev: int) { Gate(rev, 138, 526) }

  /** Where the word block starts: after 36 bytes, and the diameter integer from revision 56. */
  function ExtWordsPos(rev: int): nat { 8 + 4 + 4 + 4 + 16 + (if rev > 55 then 4 else 0) }

  function ExtDefectInfoSize(rev: int): nat { ExtWordsPos(rev) + (if WideCompIx(rev) then 4 * 2 + 4 else 0) }

  /** Where the last read of one record ends: the skips after it read nothing. */
  function ExtDefectInfoReadEnd(rev: int): nat
  {
    if WideCompIx(rev) then ExtWordsPos(rev) + 8 else if rev > 55 then ExtWordsPos(rev) else 20
  }

  /** Where the reads before the word block end: after the side bytes, or after the diameter from revision 56. */
  function ExtBaseReadEnd(rev: int): nat { if rev > 55 then ExtWordsPos(rev) else 20 }

  /** The slice numbers and the side bytes of the record at `p`. */
  function ExtBaseAt(w: Window, p: int): ExtDefectInfo
  {
    ExtDefectInfo(w.I32At(p + 8), w.I32At(p + 12), CompIxBytesAt(w, p + 16))
  }

  function CompIxBytesAt(w: Window, q: int): CompIx
  {
    CompIx(w.U8At(q), w.U8At(q + 1), w.U8At(q + 2), w.U8At(q + 3))
  }

  function CompIxWordsAt(w: Window, q: int): CompIx
  {
    CompIx(w.U16At(q), w.U16At(q + 2), w.U16At(q + 4), w.U16At(q + 6))
  }

  /** The record at `p`: in the wide revisions the words replace the side bytes. */
  function ExtDefectInfoAt(w: Window, p: int, rev: int): ExtDefectInfo
  {
    if WideCompIx(rev) then ExtBaseAt(w, p).(compIx := CompIxWordsAt(w, p + ExtWordsPos(rev))) else ExtBaseAt(w, p)
  }

  /** The record's footprint: 40 or 36 bytes below the wide revisions, 52 from them; its reads end inside it. */
  lemma ExtDefectInfoLayout(rev: int)
    ensures ExtDefectInfoReadEnd(rev) <= ExtDefectInfoSize(rev)
    ensures ExtDefectInfoSize(rev) == if WideCompIx(rev) then 52 else if rev > 55 then 40 else 36
    ensures WideCompIx(rev) ==> ExtDefectInfoSize(rev) - ExtDefectInfoReadEnd(rev) == 4
  {
  }

  /** Without wide indices every component index is a byte. */
  lemma ExtCompIxRange(w: Window, p: int, rev: int)
    ensures var c := ExtDefectInfoAt(w, p, rev).compIx;
      0 <= c.front && 0 <= c.up && 0 <= c.rear && 0 <= c.down
      && (!WideCompIx(rev) ==> c.front < 256 && c.up < 256 && c.rear < 256 && c.down < 256)
      && c.front < 0x1_0000 && c.up < 0x1_0000 && c.rear < 0x1_0000 && c.down < 0x1_0000
  {
  }

  /** The four component words of the wide revisions and the vacant bytes after them. */
  method ReadCompIxWords(r: ByteReader, vacant: nat) returns (res: Result<CompIx>)
    modifies r
    ensures res.Success? ==> r.win.Within(old(r.pos), 8)
    ensures res.Success? ==> r.pos == old(r.pos) + 8 + vacant && res.value == CompIxWordsAt(r.win, old(r.pos))
    ensures res.Failure? ==> !r.win.Within(old(r.pos), 8) && res.error.ReadPastEnd?
  {
    var front :- r.ReadWord();
    var up :- r.ReadWord();
    var rear :- r.ReadWord();
    var down :- r.ReadWord();
    r.IncOffset(vacant);
    res := Success(CompIx(front, up, rear, down));
  }

  /** The four side bytes. */
  method ReadCompIxBytes(r: ByteReader) returns (res: Result<CompIx>)
    modifies r
    ensures res.Success? ==> r.win.Within(old(r.pos), 4)
    ensures res.Success? ==> r.pos == old(r.pos) + 4 && res.value == CompIxBytesAt(r.win, old(r.pos))
    ensures res.Failure? ==> !r.win.Within(old(r.pos), 4) && res.error.ReadPastEnd?
  {
    var front :- r.ReadByte();
    var up :- r.ReadByte();
    var rear :- r.ReadByte();
    var down :- r.ReadByte();
    res := Success(CompIx(front, up, rear, down));
  }

  /** The 8 skipped bytes, the slice numbers, the side bytes, 16 skipped bytes and the diameter from revision 56. */
  method ReadExtBase(r: ByteReader, rev: int) returns (res: Result<ExtDefectInfo>)
    modifies r
    ensures res.Success? ==> r.win.Within(old(r.pos) + 8, ExtBaseReadEnd(rev) - 8)
    ensures res.Success? ==> res.value == ExtBaseAt(r.win, old(r.pos)) && r.pos == old(r.pos) + ExtWordsPos(rev)
    ensures res.Failure? ==> !r.win.Within(old(r.pos) + 8, ExtBaseReadEnd(rev) - 8) && res.error.ReadPastEnd?
  {
    r.IncOffset(8);
    var firstSlc :- r.ReadInteger();
    var lastSlc :- r.ReadInteger();
    var compIx :- ReadCompIxBytes(r);
    r.IncOffset(16);
    if rev > 55 {
      var diamX :- r.ReadInteger();
    }
    res := Success(ExtDefectInfo(firstSlc, lastSlc, compIx));
  }

  method ReadExtDefectInfo(r: ByteReader, rev: int) returns (res: Result<ExtDefectInfo>)
    modifies r
    ensures res.Success? ==> r.win.Within(old(r.pos) + 8, ExtDefectInfoReadEnd(rev) - 8)
    ensures res.Success? ==> res.value == ExtDefectInfoAt(r.win, old(r.pos), rev) && r.pos == old(r.pos) + ExtDefectInfoSize(rev)
    ensures res.Failure? ==> !r.win.Within(old(r.pos) + 8, ExtDefectInfoReadEnd(rev) - 8) && res.error.ReadPastEnd?
  {
    var e :- ReadExtBase(r, rev);
    if rev > 526 || (rev < 500 && rev > 138) {
      var compIx :- ReadCompIxWords(r, 4);
      e := e.(compIx := compIx);
    }
    res := Success(e);
  }

  /** The decoder of one record, for runs of them. */
  function ExtDefectInfoReader(w: Window, rev: int): int -> ExtDefectInfo { q => ExtDefectInfoAt(w, q, rev) }

  /** `n` records one record size apart from `p`: record `j` is `j` record sizes after `p`. */
  function ExtDefectInfosAt(w: Window, p: int, rev: int, n: nat): (s: seq<ExtDefectInfo>)
    ensures |s| == n
  {
    RunAt(ExtDefectInfoReader(w, rev), p, ExtDefectInfoSize(rev), n)
  }

  method ReadExtDefectInfosToStream(r: ByteReader, rev: int, nd: int) returns (res: Result<seq<ExtDefectInfo>>)
    modifies r
    ensures res.Success? ==> Count(nd) == 0 || r.win.Within(old(r.pos) + 8, (Count(nd) - 1) * ExtDefectInfoSize(rev) + ExtDefectInfoReadEnd(rev) - 8)
    ensures res.Success? ==> r.pos == old(r.pos) + Count(nd) * ExtDefectInfoSize(rev)
    ensures res.Success? ==> res.value == ExtDefectInfosAt(r.win, old(r.pos), rev, Count(nd))
    ensures res.Failure? ==> Count(nd) > 0 && !r.win.Within(old(r.pos) + 8, (Count(nd) - 1) * ExtDefectInfoSize(rev) + ExtDefectInfoReadEnd(rev) - 8)
    ensures res.Failure? ==> res.error.ReadPastEnd?
  {
    ghost var p0 := r.pos;
    ghost var size := ExtDefectInfoSize(rev);
    ghost var last := ExtDefectInfoReadEnd(rev);
    ExtDefectInfoLayout(rev);
    var acc: seq<ExtDefectInfo> := [];
    var i := 0;
    while i < Count(nd)
      invariant 0 <= i <= Count(nd)
      invariant r.pos == p0 + i * size
      invariant i > 0 ==> r.win.Within(p0 + 8, (i - 1) * size + last - 8)
      invariant acc == RunAt(ExtDefectInfoReader(r.win, rev), p0, size, i)
    {
      StrideStep(size, last, i, Count(nd));
      ghost var q := r.pos;
      var e :- ReadExtDefectInfo(r, rev);
      RunAtStep(ExtDefectInfoReader(r.win, rev), p0, size, i, q, e);
      acc := acc + [e];
      i := i + 1;
    }
    res := Success(acc);
  }

  // ---------------------------------------------------------------------
  // Combined defects (ReadCombiDefectsFromStream).
  // ---------------------------------------------------------------------

  datatype CombiDefect = CombiDefect(
    mainType: int, subType: int,
    diamEff: int, xc: int, yc: int, fDist: int, bDist: int, x1: int, x2: int, y1: int, y2: int,
    firstSlc: int, lastSlc: int, compIx: CompIx)

  /** 56 bytes, and a word block with 8 vacant bytes in the wide revisions. */
  function CombiDefectSize(rev: int): nat { if WideCompIx(rev) then 56 + 8 + 8 else 56 }

  function CombiDefectReadEnd(rev: int): nat { if WideCompIx(rev) then 56 + 8 else 56 }

  /** The types and the nine smallints of the record at `p`, with the later fields still zero. */
  function CombiHeadAt(w: Window, p: int): CombiDefect
  {
    CombiDefect(
      w.U8At(p), w.U8At(p + 1),
      w.I16At(p + 4), w.I16At(p + 6), w.I16At(p + 8), w.I16At(p + 10), w.I16At(p + 12),
      w.I16At(p + 14), w.I16At(p + 16), w.I16At(p + 18), w.I16At(p + 20),
      0, 0, CompIx(0, 0, 0, 0))
  }

  function CombiDefectAt(w: Window, p: int, rev: int): CombiDefect
  {
    CombiHeadAt(w, p).(firstSlc := w.I32At(p + 48), lastSlc := w.I32At(p + 52),
      compIx := if WideCompIx(rev) then CompIxWordsAt(w, p + 56) else CompIxBytesAt(w, p + 22))
  }

  /** Unlike the per-side defects, the combined defect's types are stored as on the wire. */
  lemma CombiDefectTypesRaw(w: Window, p: int, rev: int)
    ensures 0 <= CombiDefectAt(w, p, rev).mainType < 256
    ensures w.Within(p, 1) ==> CombiDefectAt(w, p, rev).mainType == w.Slice(p, 1)[0] as int
    ensures CombiDefectReadEnd(rev) <= CombiDefectSize(rev)
  {
  }

  /** The two type bytes, two bytes that are skipped and the nine smallints. */
  method ReadCombiDefectHead(r: ByteReader) returns (res: Result<CombiDefect>)
    modifies r
    ensures res.Success? ==> r.win.Within(old(r.pos), 22)
    ensures res.Success? ==> r.pos == old(r.pos) + 22 && res.value == CombiHeadAt(r.win, old(r.pos))
    ensures res.Failure? ==> !r.win.Within(old(r.pos), 22) && res.error.ReadPastEnd?
  {
    var mainType :- r.ReadByte();
    var subType :- r.ReadByte();
    var offset :- r.ReadByte();
    var spike :- r.ReadByte();
    var diamEff :- r.ReadSmallInt();
    var xc :- r.ReadSmallInt();
    var yc :- r.ReadSmallInt();
    var fDist :- r.ReadSmallInt();
    var bDist :- r.ReadSmallInt();
    var x1 :- r.ReadSmallInt();
    var x2 :- r.ReadSmallInt();
    var y1 :- r.ReadSmallInt();
    var y2 :- r.ReadSmallInt();
    res := Success(CombiDefect(mainType, subType, diamEff, xc, yc, fDist, bDist, x1, x2, y1, y2, 0, 0, CompIx(0, 0, 0, 0)));
  }

  /** The pith flag, 5 skipped bytes and the pith position (all discarded), then the two slice numbers. */
  method ReadCombiSlices(r: ByteReader) returns (res: Result<(int, int)>)
    modifies r
    ensures res.Success? ==> r.win.Within(old(r.pos), 30)
    ensures res.Success? ==> r.pos == old(r.pos) + 30 && res.value == (r.win.I32At(old(r.pos) + 22), r.win.I32At(old(r.pos) + 26))
    ensures res.Failure? ==> !r.win.Within(old(r.pos), 30) && res.error.ReadPastEnd?
  {
    var pithIsInside :- r.ReadBoolean();
    r.IncOffset(5);
    var pithY :- r.ReadDouble();
    var pithZ :- r.ReadDouble();
    var firstSlc :- r.ReadInteger();
    var lastSlc :- r.ReadInteger();
    res := Success((firstSlc, lastSlc));
  }

  method ReadCombiDefect(r: ByteReader, rev: int) returns (res: Result<CombiDefect>)
    modifies r
    ensures res.Success? ==> r.win.Within(old(r.pos), CombiDefectReadEnd(rev))
    ensures res.Success? ==> res.value == CombiDefectAt(r.win, old(r.pos), rev) && r.pos == old(r.pos) + CombiDefectSize(rev)
    ensures res.Failure? ==> !r.win.Within(old(r.pos), CombiDefectReadEnd(rev)) && res.error.ReadPastEnd?
  {
    var c :- ReadCombiDefectHead(r);
    var sides :- ReadCompIxBytes(r);
    var slices :- ReadCombiSlices(r);
    c := c.(firstSlc := slices.0, lastSlc := slices.1, compIx := sides);
    if rev > 526 || (rev < 500 && rev > 138) {
      var words :- ReadCompIxWords(r, 8);
      c := c.(compIx := words);
    }
    res := Success(c);
  }

  /** The decoder of one record, for runs of them. */
  function CombiDefectReader(w: Window, rev: int): int -> CombiDefect { q => CombiDefectAt(w, q, rev) }

  /** `n` combined defects one record size apart from `p`: record `j` is `j` record sizes after `p`. */
  function CombiDefectsAt(w: Window, p: int, rev: int, n: nat): (s: seq<CombiDefect>)
    ensures |s| == n
  {
    RunAt(CombiDefectReader(w, rev), p, CombiDefectSize(rev), n)
  }

  method ReadCombiDefectsFromStream(r: ByteReader, rev: int, nc: int) returns (res: Result<seq<CombiDefect>>)
    modifies r
    ensures res.Success? ==> Count(nc) == 0 || r.win.Within(old(r.pos), (Count(nc) - 1) * CombiDefectSize(rev) + CombiDefectReadEnd(rev))
    ensures res.Success? ==> r.pos == old(r.pos) + Count(nc) * CombiDefectSize(rev)
    ensures res.Success? ==> res.value == CombiDefectsAt(r.win, old(r.pos), rev, Count(nc))
    ensures res.Failure? ==> Count(nc) > 0 && !r.win.Within(old(r.pos), (Count(nc) - 1) * CombiDefectSize(rev) + CombiDefectReadEnd(rev))
    ensures res.Failure? ==> res.error.ReadPastEnd?
  {
    ghost var p0 := r.pos;
    ghost var size := CombiDefectSize(rev);
    ghost var last := CombiDefectReadEnd(rev);
    var acc: seq<CombiDefect> := [];
    var i := 0;
    while i < Count(nc)
      invariant 0 <= i <= Count(nc)
      invariant r.pos == p0 + i * size
      invariant i > 0 ==> r.win.Within(p0, (i - 1) * size + last)
      invariant acc == RunAt(CombiDefectReader(r.win, rev), p0, size, i)
    {
      StrideStep(size, last, i, Count(nc));
      ghost var q := r.pos;
      var c :- ReadCombiDefect(r, rev);
      RunAtStep(CombiDefectReader(r.win, rev), p0, size, i, q, c);
      acc := acc + [c];
      i := i + 1;
    }
    res := Success(acc);
  }

  // ---------------------------------------------------------------------
  // Slices of a defect (FindSliceNum, SetFirstAndLastDefectSlices).
  // ---------------------------------------------------------------------

  /**
   * The scan of `FindSliceNum` over the slice positions `xs` (slice k of the
   * source's 1-based geometry at `xs[k - 1]`): the first slice at or after
   * `ip` that is not below `x`, or one past the last slice.
   */
  function ScanStop(xs: seq<int>, x: int, ip: int): (stop: int)
    requires ip >= 1
    decreases |xs| + 1 - ip
    ensures stop >= ip
    ensures forall k :: ip - 1 <= k < stop - 1 ==> k < |xs| && xs[k] < x
    ensures stop <= |xs| ==> xs[stop - 1] >= x
    ensures stop <= |xs| + 1 || stop == ip
  {
    if ip <= |xs| && xs[ip - 1] < x then ScanStop(xs, x, ip + 1) else ip
  }

  /** What `FindSliceNum(x, Geom, start)` returns: the last slice below `x` from the start on, or the start. */
  function SliceNum(xs: seq<int>, x: int, start: int): int
  {
    var s := if start < 1 then 1 else start;
    var stop := ScanStop(xs, x, s);
    if stop > s then stop - 1 else s
  }

  method FindSliceNum(x: int, xs: seq<int>, start: int) returns (slice: int)
    ensures slice == SliceNum(xs, x, start)
  {
    var s := if start < 1 then 1 else start;
    var ip := s;
    // `Geom.length` is one more than the slice count: the source's arrays are 1-based.
    while ip < |xs| + 1 && xs[ip - 1] < x
      invariant s <= ip
      invariant ScanStop(xs, x, ip) == ScanStop(xs, x, s)
      decreases |xs| + 1 - ip
    {
      ip := ip + 1;
    }
    if ip > s {
      slice := ip - 1;
    } else {
      slice := s;
    }
  }

  /** The slice found is at least the start (and at least 1), and a slice past the start lies below `x` with every slice before it. */
  lemma SliceNumBounds(xs: seq<int>, x: int, start: int)
    ensures SliceNum(xs, x, start) >= start && SliceNum(xs, x, start) >= 1
    ensures var s := if start < 1 then 1 else start; var n := SliceNum(xs, x, start);
      n > s ==> n <= |xs| && (forall k :: s - 1 <= k < n ==> xs[k] < x) && (n < |xs| ==> xs[n] >= x)
    ensures var s := if start < 1 then 1 else start; SliceNum(xs, x, start) <= if s <= |xs| then |xs| else s
  {
  }

  /** The scan stops no earlier for a larger target. */
  lemma {:induction false} ScanStopMonotone(xs: seq<int>, x: int, y: int, ip: int)
    requires ip >= 1 && x <= y
    decreases |xs| + 1 - ip
    ensures ScanStop(xs, x, ip) <= ScanStop(xs, y, ip)
  {
    if ip <= |xs| && xs[ip - 1] < x {
      ScanStopMonotone(xs, x, y, ip + 1);
    }
  }

  /** A larger target never gives an earlier slice. */
  lemma SliceNumMonotone(xs: seq<int>, x: int, y: int, start: int)
    requires x <= y
    ensures SliceNum(xs, x, start) <= SliceNum(xs, y, start)
  {
    ScanStopMonotone(xs, x, y, if start < 1 then 1 else start);
  }

  /**
   * `SetFirstAndLastDefectSlices`: the first slice of each defect is searched
   * from the board's start for its X1, the last from that first slice for its
   * X2. Record k of the source's 1-based arrays is element k - 1 here.
   */
  method SetFirstAndLastDefectSlices(ext: seq<ExtDefectInfo>, defects: seq<Defect>, xs: seq<int>)
    returns (res: seq<ExtDefectInfo>)
    requires |defects| >= |ext|
    ensures |res| == |ext|
    ensures forall i :: 0 <= i < |ext| ==> res[i] == ext[i].(
      firstSlc := SliceNum(xs, defects[i].x1, 1),
      lastSlc := SliceNum(xs, defects[i].x2, SliceNum(xs, defects[i].x1, 1)))
  {
    res := [];
    var i := 0;
    while i < |ext|
      invariant 0 <= i <= |ext|
      invariant |res| == i
      invariant forall k :: 0 <= k < i ==> res[k] == ext[k].(
        firstSlc := SliceNum(xs, defects[k].x1, 1),
        lastSlc := SliceNum(xs, defects[k].x2, SliceNum(xs, defects[k].x1, 1)))
    {
      var first := FindSliceNum(defects[i].x1, xs, 1);
      var last := FindSliceNum(defects[i].x2, xs, first);
      res := res + [ext[i].(firstSlc := first, lastSlc := last)];
      i := i + 1;
    }
  }

  /** After the slices are set, every defect starts on slice 1 or later and ends no earlier than it starts. */
  lemma DefectSlicesOrdered(xs: seq<int>, x1: int, x2: int)
    ensures 1 <= SliceNum(xs, x1, 1) <= SliceNum(xs, x2, SliceNum(xs, x1, 1))
    ensures x1 <= x2 && SliceNum(xs, x1, 1) < SliceNum(xs, x2, 1) ==> SliceNum(xs, x2, SliceNum(xs, x1, 1)) == SliceNum(xs, x2, 1)
  {
    SliceNumBounds(xs, x1, 1);
    SliceNumBounds(xs, x2, SliceNum(xs, x1, 1));
    if x1 <= x2 && SliceNum(xs, x1, 1) < SliceNum(xs, x2, 1) {
      SliceNumRestart(xs, x2, SliceNum(xs, x1, 1));
    }
  }

  /** Restarting the scan at a slice that is still below the target finds the same slice. */
  lemma SliceNumRestart(xs: seq<int>, x: int, s: int)
    requires 1 <= s < SliceNum(xs, x, 1)
    ensures SliceNum(xs, x, s) == SliceNum(xs, x, 1)
  {
    SliceNumBounds(xs, x, 1);
    ScanStopFrom(xs, x, 1, s);
  }

  /** A scan that passes slice `s` stops where the scan started at `s` stops. */
  lemma {:induction false} ScanStopFrom(xs: seq<int>, x: int, ip: int, s: int)
    requires 1 <= ip <= s < ScanStop(xs, x, ip)
    decreases s - ip
    ensures ScanStop(xs, x, s) == ScanStop(xs, x, ip)
  {
    if ip < s {
      ScanStopFrom(xs, x, ip + 1, s);
    }
  }
}
