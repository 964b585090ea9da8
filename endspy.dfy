/**
 * The end-camera results of a board record (readEndSpyResult and
 * readECtoBOA): a front part whose blocks appear with the revision, a
 * split table of fixed capacity, and the later blocks of revision 112
 * onwards.
 */
module EndSpy {
  import opened Wrappers
  import opened Bytes
  import opened Reader
  import opened Arrays
  import opened Revision

  // ---------------------------------------------------------------------
  // The gates of the end-camera record.
  // ---------------------------------------------------------------------

  /** `(RevNr >= 502) || ((RevNr < 500) && (RevNr > 115))`: void percent, 30 splits and edge voids. */
  predicate HasEdgeVoids(rev: int) { Gate(rev, 115, 501) }

  /** `(RevNr >= 503) || ((RevNr < 500) && (RevNr > 117))`: each split has a type and a diameter. */
  predicate HasSplitType(rev: int) { Gate(rev, 117, 502) }

  /** `(RevNr >= 508) || ((RevNr < 500) && (RevNr > 121))`: tree species and dark blue stain. */
  predicate HasTreeSpecies(rev: int) { Gate(rev, 121, 507) }

  /** `(RevNr > 513) || ((RevNr < 500) && (RevNr > 127))`: cup shape, pith and roughness. */
  predicate HasCupShape(rev: int) { Gate(rev, 127, 513) }

  /** The Delphi alignment word of revisions 503 to 513 and 118 to 127. */
  predicate HasLatePad(rev: int) { (503 <= rev <= 513) || (118 <= rev <= 127) }

  /** The trailing alignment word of the shorter records. */
  predicate HasTrailingPad(rev: int) { (rev <= 107 && rev != 100) || rev == 115 || rev == 500 || rev == 501 }

  /** The split type gate lies inside the edge-void gate. */
  lemma SplitTypeHasEdgeVoids(rev: int)
    ensures HasSplitType(rev) ==> HasEdgeVoids(rev)
    ensures HasCupShape(rev) ==> HasTreeSpecies(rev) && HasSplitType(rev)
  {
  }

  // ---------------------------------------------------------------------
  // The end camera to board coordinate block (readECtoBOA), 36 bytes.
  // ---------------------------------------------------------------------

  datatype ECtoBOA = ECtoBOA(
    enable: int, sameDirectionZ: bool, sameDirectionY: bool, sameSideFromStartX: bool, ecValid: bool,
    y: int, z: int, yPith: int, zPith: Float32, yOffset: int, zOffset: int, ecPithCorrect: bool)

  function ECtoBOAAt(w: Window, p: int): ECtoBOA
  {
    ECtoBOA(w.I32At(p), w.BoolAt(p + 4), w.BoolAt(p + 5), w.BoolAt(p + 6), w.BoolAt(p + 7),
      w.I32At(p + 8), w.I32At(p + 12), w.I32At(p + 16), w.F32At(p + 20), w.I32At(p + 24), w.I32At(p + 28),
      w.BoolAt(p + 32))
  }

  /** The block takes 36 bytes; its last three are alignment and are not read. */
  method ReadECtoBOA(r: ByteReader) returns (res: Result<ECtoBOA>)
    modifies r
    ensures res.Success? ==> r.win.Within(old(r.pos), 33)
    ensures res.Success? ==> r.pos == old(r.pos) + 36 && res.value == ECtoBOAAt(r.win, old(r.pos))
    ensures res.Failure? ==> !r.win.Within(old(r.pos), 33) && res.error.ReadPastEnd?
  {
    var enable :- r.ReadInteger();
    var sameZ :- r.ReadBoolean();
    var sameY :- r.ReadBoolean();
    var sameX :- r.ReadBoolean();
    var ecValid :- r.ReadBoolean();
    var y :- r.ReadInteger();
    var z :- r.ReadInteger();
    var yPith :- r.ReadInteger();
    var zPith :- r.ReadSingle();
    var yOffset :- r.ReadInteger();
    var zOffset :- r.ReadInteger();
    var pithCorrect :- r.ReadBoolean();
    r.IncOffset(3);
    res := Success(ECtoBOA(enable, sameZ, sameY, sameX, ecValid, y, z, yPith, zPith, yOffset, zOffset, pithCorrect));
  }

  // ---------------------------------------------------------------------
  // The front part: identifiers, gap measures and the blocks of revisions
  // 93 and 100 / 108 onwards.
  // ---------------------------------------------------------------------

  /** The board identifier, the frame time and the run direction (an alignment word sits between the first two). */
  datatype EsHead = EsHead(boardId: int, frameTime: Float64, runDirection: int)

  datatype EsGaps = EsGaps(
    x: Float32, y: Float32, thickness: Float32, width: Float32, averageGap: Float32,
    maxGap: Float32, minGap: Float32, gapStdDev: Float32, darkGrainRatio: Float32, averageDarkRingWidth: Float32)

  /** The block of revision 93 onwards; zeros and an empty name before. */
  datatype EsV93 = EsV93(warpAngle: int, lightlevel: int, rejected: int, xlog: int, boardFileName: seq<uint8>)

  /** The block of revision 100 and 108 onwards; zeros before. The shake length is a single or an integer. */
  datatype EsV108 = EsV108(bluestainPercent: int, rotPercent: int, voidPercent: int, shakeLength: Num, treeAge: int)

  /** The identifiers and the gap measures, present in every revision. */
  datatype EsIdent = EsIdent(head: EsHead, gaps: EsGaps)

  /** The blocks of revision 93 and of revisions 100 and 108 onwards. */
  datatype EsStain = EsStain(v93: EsV93, v108: EsV108)

  datatype EsFront = EsFront(ident: EsIdent, stain: EsStain)

  function EsHeadAt(w: Window, p: int): EsHead { EsHead(w.U32At(p), w.F64At(p + 8), w.I32At(p + 16)) }

  function EsGapsAt(w: Window, p: int): EsGaps
  {
    EsGaps(w.F32At(p), w.F32At(p + 4), w.F32At(p + 8), w.F32At(p + 12), w.F32At(p + 16),
      w.F32At(p + 20), w.F32At(p + 24), w.F32At(p + 28), w.F32At(p + 32), w.F32At(p + 36))
  }

  predicate HasV108(rev: int) { rev > 107 || rev == 100 }

  function EsV93Size(rev: int): nat { if rev > 92 then 4 * 4 + 101 + 3 else 0 }

  function EsV108Size(rev: int): nat { if HasV108(rev) then 4 * 4 + 4 + 8 + 8 else 0 }

  const EsV93Default := EsV93(0, 0, 0, 0, [])

  const EsV108Default := EsV108(0, 0, 0, Int(0), 0)

  function EsV93At(w: Window, p: int): EsV93
  {
    EsV93(w.I32At(p), w.I32At(p + 4), w.I32At(p + 8), w.I32At(p + 12), w.Slice(p + 16, 101))
  }

  /** Before revision 116 (and 502) the shake length is an integer followed by an alignment word, and there is no void percent. */
  function EsV108At(w: Window, p: int, rev: int): EsV108
  {
    if HasEdgeVoids(rev) then EsV108(w.I32At(p), w.I32At(p + 4), w.I32At(p + 8), F32(w.F32At(p + 12)), w.I32At(p + 16))
    else EsV108(w.I32At(p), w.I32At(p + 4), 0, Int(w.I32At(p + 8)), w.I32At(p + 16))
  }

  function EsIdentAt(w: Window, p: int): EsIdent { EsIdent(EsHeadAt(w, p), EsGapsAt(w, p + 20)) }

  function EsStainSize(rev: int): nat { EsV93Size(rev) + EsV108Size(rev) }

  function EsStainAt(w: Window, p: int, rev: int): EsStain
  {
    EsStain(if rev > 92 then EsV93At(w, p) else EsV93Default,
      if HasV108(rev) then EsV108At(w, p + EsV93Size(rev), rev) else EsV108Default)
  }

  function EsFrontSize(rev: int): nat { 60 + EsStainSize(rev) }

  function EsFrontAt(w: Window, p: int, rev: int): EsFront
  {
    EsFront(EsIdentAt(w, p), EsStainAt(w, p + 60, rev))
  }

  lemma EsFrontSizes(rev: int)
    ensures EsFrontSize(rev) == if rev <= 92 then 60 else if HasV108(rev) then 216 else 180
  {
  }

  method ReadEsHead(r: ByteReader) returns (res: Result<EsHead>)
    modifies r
    ensures res.Success? ==> r.win.Within(old(r.pos), 20)
    ensures res.Success? ==> r.pos == old(r.pos) + 20 && res.value == EsHeadAt(r.win, old(r.pos))
    ensures res.Failure? ==> !r.win.Within(old(r.pos), 20) && res.error.ReadPastEnd?
  {
    var boardId :- r.ReadCardinal();
    var align :- r.ReadInteger();
    var frameTime :- r.ReadDateTime();
    var runDirection :- r.ReadInteger();
    res := Success(EsHead(boardId, frameTime, runDirection));
  }

  method ReadEsGaps(r: ByteReader) returns (res: Result<EsGaps>)
    modifies r
    ensures res.Success? ==> r.win.Within(old(r.pos), 40)
    ensures res.Success? ==> r.pos == old(r.pos) + 40 && res.value == EsGapsAt(r.win, old(r.pos))
    ensures res.Failure? ==> !r.win.Within(old(r.pos), 40) && res.error.ReadPastEnd?
  {
    var x :- r.ReadSingle();
    var y :- r.ReadSingle();
    var thickness :- r.ReadSingle();
    var width :- r.ReadSingle();
    var averageGap :- r.ReadSingle();
    var maxGap :- r.ReadSingle();
    var minGap :- r.ReadSingle();
    var gapStdDev :- r.ReadSingle();
    var darkGrainRatio :- r.ReadSingle();
    var ringWidth :- r.ReadSingle();
    res := Success(EsGaps(x, y, thickness, width, averageGap, maxGap, minGap, gapStdDev, darkGrainRatio, ringWidth));
  }

  /** Four integers, the 101-byte board file name and three alignment bytes. */
  method ReadEsV93(r: ByteReader) returns (res: Result<EsV93>)
    modifies r
    ensures res.Success? ==> r.win.Within(old(r.pos), 120)
    ensures res.Success? ==> r.pos == old(r.pos) + 120 && res.value == EsV93At(r.win, old(r.pos))
    ensures res.Failure? ==> !r.win.Within(old(r.pos), 120) && res.error.ReadPastEnd?
  {
    var warpAngle :- r.ReadInteger();
    var lightlevel :- r.ReadInteger();
    var rejected :- r.ReadInteger();
    var xlog :- r.ReadInteger();
    var name :- r.ReadShortString(100);
    var a1 :- r.ReadByte();
    var a2 :- r.ReadByte();
    var a3 :- r.ReadByte();
    res := Success(EsV93(warpAngle, lightlevel, rejected, xlog, name));
  }

  /** The void percent and the shake length: an integer and a single, or an integer shake and an alignment word. */
  method ReadEsShake(r: ByteReader, rev: int) returns (res: Result<(int, Num)>)
    modifies r
    ensures res.Success? ==> r.win.Within(old(r.pos), 8)
    ensures res.Success? ==> r.pos == old(r.pos) + 8
    ensures res.Success? ==> res.value == if HasEdgeVoids(rev) then (r.win.I32At(old(r.pos)), F32(r.win.F32At(old(r.pos) + 4)))
      else (0, Int(r.win.I32At(old(r.pos))))
    ensures res.Failure? ==> !r.win.Within(old(r.pos), 8) && res.error.ReadPastEnd?
  {
    if (rev >= 502) || ((rev < 500) && (rev > 115)) {
      var voidPercent :- r.ReadInteger();
      var shake :- r.ReadSingle();
      res := Success((voidPercent, F32(shake)));
    } else {
      var shake :- r.ReadInteger();
      var align :- r.ReadInteger();
      res := Success((0, Int(shake)));
    }
  }

  /** The stain and shake block, then the send and read times, which are dropped. */
  method ReadEsV108(r: ByteReader, rev: int) returns (res: Result<EsV108>)
    modifies r
    ensures res.Success? ==> r.win.Within(old(r.pos), 36)
    ensures res.Success? ==> r.pos == old(r.pos) + 36 && res.value == EsV108At(r.win, old(r.pos), rev)
    ensures res.Failure? ==> !r.win.Within(old(r.pos), 36) && res.error.ReadPastEnd?
  {
    var bluestain :- r.ReadInteger();
    var rot :- r.ReadInteger();
    var shake :- ReadEsShake(r, rev);
    var treeAge :- r.ReadInteger();
    var sendTime :- r.ReadDateTime();
    var readTime :- r.ReadDateTime();
    res := Success(EsV108(bluestain, rot, shake.0, shake.1, treeAge));
  }

  method ReadEsIdent(r: ByteReader) returns (res: Result<EsIdent>)
    modifies r
    ensures res.Success? ==> r.win.Within(old(r.pos), 60)
    ensures res.Success? ==> r.pos == old(r.pos) + 60 && res.value == EsIdentAt(r.win, old(r.pos))
    ensures res.Failure? ==> !r.win.Within(old(r.pos), 60) && res.error.ReadPastEnd?
  {
    var head :- ReadEsHead(r);
    var gaps :- ReadEsGaps(r);
    res := Success(EsIdent(head, gaps));
  }

  method ReadEsStain(r: ByteReader, rev: int) returns (res: Result<EsStain>)
    modifies r
    ensures res.Success? ==> EsStainSize(rev) == 0 || r.win.Within(old(r.pos), EsStainSize(rev))
    ensures res.Success? ==> r.pos == old(r.pos) + EsStainSize(rev) && res.value == EsStainAt(r.win, old(r.pos), rev)
    ensures res.Failure? ==> EsStainSize(rev) > 0 && !r.win.Within(old(r.pos), EsStainSize(rev)) && res.error.ReadPastEnd?
  {
    ghost var p0 := r.pos;
    var v93 := EsV93Default;
    if rev > 92 {
      v93 :- ReadEsV93(r);
    }
    ghost var q := r.pos;
    var v108 := EsV108Default;
    if (rev > 107) || (rev == 100) {
      v108 :- ReadEsV108(r, rev);
    }
    assert v108 == if HasV108(rev) then EsV108At(r.win, q, rev) else EsV108Default;
    res := Success(EsStain(v93, v108));
  }

  method ReadEsFront(r: ByteReader, rev: int) returns (res: Result<EsFront>)
    modifies r
    ensures res.Success? ==> r.win.Within(old(r.pos), EsFrontSize(rev))
    ensures res.Success? ==> r.pos == old(r.pos) + EsFrontSize(rev) && res.value == EsFrontAt(r.win, old(r.pos), rev)
    ensures res.Failure? ==> !r.win.Within(old(r.pos), EsFrontSize(rev)) && res.error.ReadPastEnd?
  {
    var ident :- ReadEsIdent(r);
    var stain :- ReadEsStain(r, rev);
    res := Success(EsFront(ident, stain));
  }

  // ---------------------------------------------------------------------
  // The split table of revision 115 onwards.
  // ---------------------------------------------------------------------

  /** One split: its end points are skipped, its width and length kept, and its type read where it exists. */
  datatype EndSplit = EndSplit(width: int, length: int, splitType: Option<int>)

  /** The bytes of a split: 40, or 44 with the type and diameter. */
  function EndSplitSize(rev: int): nat { if HasSplitType(rev) then 44 else 40 }

  /** Where the reads of a split end: after the diameter, or after the length when the split has no type. */
  function EndSplitReadEnd(rev: int): nat { if HasSplitType(rev) then 44 else 24 }

  /** How many splits the table holds: 30 with edge voids, 10 before. */
  function SplitCapacity(rev: int): nat { if HasEdgeVoids(rev) then 30 else 10 }

  /** The size the source skips per unread split: `splitSize`, 44 only with both gates. */
  function SplitSlotSize(rev: int): nat { if HasEdgeVoids(rev) && HasSplitType(rev) then 44 else 40 }

  /** The slots the source skips over are exactly as wide as the splits it reads. */
  lemma SplitSlotIsSplit(rev: int)
    ensures SplitSlotSize(rev) == EndSplitSize(rev)
  {
    SplitTypeHasEdgeVoids(rev);
  }

  function EndSplitAt(w: Window, q: int, rev: int): EndSplit
  {
    EndSplit(w.I32At(q + 16), w.I32At(q + 20), if HasSplitType(rev) then Some(w.I16At(q + 40)) else None)
  }

  method ReadEndSplit(r: ByteReader, rev: int) returns (res: Result<EndSplit>)
    modifies r
    ensures res.Success? ==> r.win.Within(old(r.pos) + 16, EndSplitReadEnd(rev) - 16)
    ensures res.Success? ==> r.pos == old(r.pos) + EndSplitSize(rev) && res.value == EndSplitAt(r.win, old(r.pos), rev)
    ensures res.Failure? ==> !r.win.Within(old(r.pos) + 16, EndSplitReadEnd(rev) - 16) && res.error.ReadPastEnd?
  {
    r.IncOffset(4 * 4);
    var width :- r.ReadInteger();
    var length :- r.ReadInteger();
    r.IncOffset(4 * 4);
    var splitType := None;
    if (rev >= 503) || ((rev < 500) && (rev > 117)) {
      var t :- r.ReadSmallInt();
      var diameter :- r.ReadSmallInt();
      splitType := Some(t);
    }
    res := Success(EndSplit(width, length, splitType));
  }

  /** The decoder of one record, for runs of them. */
  function EndSplitReader(w: Window, rev: int): int -> EndSplit { q => EndSplitAt(w, q, rev) }

  /** `n` splits one split size apart from `p`. */
  function EndSplitsAt(w: Window, p: int, rev: int, n: nat): (s: seq<EndSplit>)
    ensures |s| == n
  {
    RunAt(EndSplitReader(w, rev), p, EndSplitSize(rev), n)
  }

  /** The `n` splits of the table; none when `n` is not positive. */
  method ReadEndSplits(r: ByteReader, rev: int, n: int) returns (res: Result<seq<EndSplit>>)
    modifies r
    ensures res.Success? ==> Count(n) == 0 || r.win.Within(old(r.pos) + 16, (Count(n) - 1) * EndSplitSize(rev) + EndSplitReadEnd(rev) - 16)
    ensures res.Success? ==> r.pos == old(r.pos) + Count(n) * EndSplitSize(rev)
    ensures res.Success? ==> res.value == EndSplitsAt(r.win, old(r.pos), rev, Count(n))
    ensures res.Failure? ==> Count(n) > 0 && !r.win.Within(old(r.pos) + 16, (Count(n) - 1) * EndSplitSize(rev) + EndSplitReadEnd(rev) - 16)
    ensures res.Failure? ==> res.error.ReadPastEnd?
  {
    ghost var p0 := r.pos;
    ghost var size := EndSplitSize(rev);
    ghost var last := EndSplitReadEnd(rev);
    var acc: seq<EndSplit> := [];
    var i := 0;
    while i < Count(n)
      invariant 0 <= i <= Count(n)
      invariant r.pos == p0 + i * size
      invariant i > 0 ==> r.win.Within(p0 + 16, (i - 1) * size + last - 16)
      invariant acc == RunAt(EndSplitReader(r.win, rev), p0, size, i)
    {
      StrideStep(size, last, i, Count(n));
      ghost var q := r.pos;
      var x :- ReadEndSplit(r, rev);
      RunAtStep(EndSplitReader(r.win, rev), p0, size, i, q, x);
      acc := acc + [x];
      i := i + 1;
    }
    res := Success(acc);
  }

  // ---------------------------------------------------------------------
  // The back part: splits, tree species, cup shape and the coordinate block.
  // ---------------------------------------------------------------------

  /** The declared split count and the splits read (none are read before revision 115). */
  datatype EsSplits = EsSplits(count: int, splits: seq<EndSplit>)

  datatype EsV122 = EsV122(treeSpecies: int, darkBlueStainPercent: int)

  datatype EsV128 = EsV128(
    cupShapeOffset: Num, cupShapeOffsetUp: Num, cupShapeOffsetDown: Num,
    pithX: int, pithY: int, pithYRelativeValue: Num, pithQuadr: int, roughness: int)

  /** The species and cup shape blocks; zeros where the revision has none. */
  datatype EsShape = EsShape(v122: EsV122, v128: EsV128)

  /** The split table, the shape blocks, and the coordinate block (absent, `{}`, before revision 112). */
  datatype EsBack = EsBack(split: EsSplits, shape: EsShape, ec: Option<ECtoBOA>)

  const EsV122Default := EsV122(0, 0)

  const EsV128Default := EsV128(Int(0), Int(0), Int(0), 0, 0, Int(0), 0, 0)

  function EsV122At(w: Window, p: int): EsV122 { EsV122(w.I32At(p), w.I32At(p + 4)) }

  function EsV128At(w: Window, p: int): EsV128
  {
    EsV128(F32(w.F32At(p)), F32(w.F32At(p + 4)), F32(w.F32At(p + 8)),
      w.I32At(p + 12), w.I32At(p + 16), F32(w.F32At(p + 20)), w.I32At(p + 24), w.I32At(p + 28))
  }

  const EsShapeDefault := EsShape(EsV122Default, EsV128Default)

  /** The camera number, the species block and the cup shape block with its 37 vacant words. */
  function EsShapeSize(rev: int): nat
  {
    4 + (if HasTreeSpecies(rev) then 8 else 0) + (if HasCupShape(rev) then 32 + 37 * 4 else 0)
  }

  function EsShapeAt(w: Window, t: int, rev: int): EsShape
  {
    EsShape(if HasTreeSpecies(rev) then EsV122At(w, t + 4) else EsV122Default,
      if HasCupShape(rev) then EsV128At(w, t + 4 + (if HasTreeSpecies(rev) then 8 else 0)) else EsV128Default)
  }

  /** The bytes of the late blocks: the shape blocks, the coordinate block and an alignment word. */
  function EsLateSize(rev: int): nat
  {
    EsShapeSize(rev) + 36 + (if HasLatePad(rev) then 4 else 0)
  }

  /** The three cup shape offsets and the pith's x. */
  method ReadEsCup(r: ByteReader) returns (res: Result<(Float32, Float32, Float32, int)>)
    modifies r
    ensures res.Success? ==> r.win.Within(old(r.pos), 16)
    ensures res.Success? ==> r.pos == old(r.pos) + 16
    ensures res.Success? ==> res.value == (r.win.F32At(old(r.pos)), r.win.F32At(old(r.pos) + 4), r.win.F32At(old(r.pos) + 8), r.win.I32At(old(r.pos) + 12))
    ensures res.Failure? ==> !r.win.Within(old(r.pos), 16) && res.error.ReadPastEnd?
  {
    var cup :- r.ReadSingle();
    var cupUp :- r.ReadSingle();
    var cupDown :- r.ReadSingle();
    var pithX :- r.ReadInteger();
    res := Success((cup, cupUp, cupDown, pithX));
  }

  /** The pith's y, its relative value and quadrant, and the roughness. */
  method ReadEsPith(r: ByteReader) returns (res: Result<(int, Float32, int, int)>)
    modifies r
    ensures res.Success? ==> r.win.Within(old(r.pos), 16)
    ensures res.Success? ==> r.pos == old(r.pos) + 16
    ensures res.Success? ==> res.value == (r.win.I32At(old(r.pos)), r.win.F32At(old(r.pos) + 4), r.win.I32At(old(r.pos) + 8), r.win.I32At(old(r.pos) + 12))
    ensures res.Failure? ==> !r.win.Within(old(r.pos), 16) && res.error.ReadPastEnd?
  {
    var pithY :- r.ReadInteger();
    var pithRel :- r.ReadSingle();
    var pithQuadr :- r.ReadInteger();
    var roughness :- r.ReadInteger();
    res := Success((pithY, pithRel, pithQuadr, roughness));
  }

  method ReadEsV128(r: ByteReader) returns (res: Result<EsV128>)
    modifies r
    ensures res.Success? ==> r.win.Within(old(r.pos), 32)
    ensures res.Success? ==> r.pos == old(r.pos) + 32 + 37 * 4 && res.value == EsV128At(r.win, old(r.pos))
    ensures res.Failure? ==> !r.win.Within(old(r.pos), 32) && res.error.ReadPastEnd?
  {
    var cup :- ReadEsCup(r);
    var pith :- ReadEsPith(r);
    r.IncOffset(37 * 4);
    res := Success(EsV128(F32(cup.0), F32(cup.1), F32(cup.2), cup.3, pith.0, F32(pith.1), pith.2, pith.3));
  }

  /** The blocks after the split table and the stain defect areas; the camera number is dropped. */
  method ReadEsShape(r: ByteReader, rev: int) returns (res: Result<EsShape>)
    modifies r
    ensures res.Success? ==> r.pos == old(r.pos) + EsShapeSize(rev) && res.value == EsShapeAt(r.win, old(r.pos), rev)
    ensures res.Failure? ==> res.error.ReadPastEnd?
  {
    ghost var p0 := r.pos;
    var camNum :- r.ReadInteger();
    var v122 := EsV122Default;
    if (rev >= 508) || ((rev < 500) && (rev > 121)) {
      var species :- r.ReadInteger();
      var darkBlue :- r.ReadInteger();
      v122 := EsV122(species, darkBlue);
    }
    ghost var c := r.pos;
    var v128 := EsV128Default;
    if (rev > 513) || ((rev < 500) && (rev > 127)) {
      v128 :- ReadEsV128(r);
    }
    assert v128 == if HasCupShape(rev) then EsV128At(r.win, c) else EsV128Default;
    res := Success(EsShape(v122, v128));
  }

  /** The shape blocks, the coordinate block and, in some revisions, an alignment word. */
  method ReadEsLate(r: ByteReader, rev: int) returns (res: Result<(EsShape, ECtoBOA)>)
    modifies r
    ensures res.Success? ==> r.pos == old(r.pos) + EsLateSize(rev)
    ensures res.Success? ==> res.value == EsLateAt(r.win, old(r.pos), rev)
    ensures res.Failure? ==> res.error.ReadPastEnd?
  {
    var shape :- ReadEsShape(r, rev);
    var ec :- ReadECtoBOA(r);
    if ((rev >= 503) && (rev <= 513)) || ((rev >= 118) && (rev <= 127)) {
      var align :- r.ReadInteger();
    }
    res := Success((shape, ec));
  }

  /**
   * The bytes the split table takes: its capacity of slots whatever the
   * count, and more when a negative count makes the skip go further.
   */
  function SplitAreaSize(rev: int, count: int): nat
  {
    var slots := SplitCapacity(rev) + Count(-count);
    if HasSplitType(rev) then 44 * slots else 40 * slots
  }

  /** The bytes from the count word to the late blocks: the count, the table, the stain and the void defect areas. */
  function EsTableSize(rev: int, count: int): nat
  {
    4 + SplitAreaSize(rev, count) + 2 * 364 + (if HasEdgeVoids(rev) then 2 * 244 else 0)
  }

  /** The split table at `b`: the count word and the splits read after it. */
  function EsSplitTableAt(w: Window, b: int, rev: int): EsSplits
  {
    EsSplits(w.I32At(b), EndSplitsAt(w, b + 4, rev, Count(w.I32At(b))))
  }

  /** The late blocks at `t`: the shape blocks, then the coordinate block. */
  function EsLateAt(w: Window, t: int, rev: int): (EsShape, ECtoBOA)
  {
    (EsShapeAt(w, t, rev), ECtoBOAAt(w, t + EsShapeSize(rev)))
  }

  /** The back part of revision 115 onwards: the split table, then the late blocks after the defect areas. */
  function EsSplitBackAt(w: Window, b: int, rev: int): EsBack
  {
    var late := EsLateAt(w, b + EsTableSize(rev, w.I32At(b)), rev);
    EsBack(EsSplitTableAt(w, b, rev), late.0, Some(late.1))
  }

  /** The back part of revisions 112 to 114: the coordinate block, then the split count; the splits are skipped. */
  function EsLegacyBackAt(w: Window, b: int): EsBack
  {
    EsBack(EsSplits(w.I32At(b + 36), []), EsShapeDefault, Some(ECtoBOAAt(w, b)))
  }

  function EsBackAt(w: Window, b: int, rev: int): EsBack
  {
    if rev > 114 then EsSplitBackAt(w, b, rev)
    else if rev > 111 then EsLegacyBackAt(w, b)
    else EsBack(EsSplits(0, []), EsShapeDefault, None)
  }

  /** The bytes of the back part, given the split count it declares. */
  function EsBackSize(rev: int, count: int): int
  {
    (if rev > 114 then EsTableSize(rev, count) + EsLateSize(rev)
     else if rev > 111 then 36 + 4 + 400 + 2 * 364
     else 0)
    + (if HasTrailingPad(rev) then 4 else 0)
  }

  /** For a count that is not negative the split table takes its full capacity of slots. */
  lemma SplitAreaFixed(rev: int, count: int)
    requires count >= 0
    ensures SplitAreaSize(rev, count) == SplitCapacity(rev) * SplitSlotSize(rev)
  {
    SplitSlotIsSplit(rev);
  }

  /** The count word, the splits read, the skip over the unused slots and the defect areas. */
  /** The unused split slots and the defect areas after the splits read. */
  method SkipSplitTail(r: ByteReader, rev: int, count: int)
    modifies r
    ensures r.pos == old(r.pos) + EsTableSize(rev, count) - 4 - Count(count) * EndSplitSize(rev)
  {
    var splitC := 10;
    var splitSize := 40;
    if (rev >= 502) || ((rev < 500) && (rev > 115)) {
      splitC := 30;
      if (rev >= 503) || ((rev < 500) && (rev > 117)) {
        splitSize := 44;
      }
    }
    SplitSlotIsSplit(rev);
    r.IncOffset((splitC - count) * splitSize);
    r.IncOffset(2 * 364);       // stain and rot defect areas
    if (rev >= 502) || ((rev < 500) && (rev > 115)) {
      r.IncOffset(2 * 244);     // edge voids
    }
  }

  method ReadEsSplitTable(r: ByteReader, rev: int) returns (res: Result<EsSplits>)
    modifies r
    ensures res.Success? ==> r.pos == old(r.pos) + EsTableSize(rev, res.value.count)
    ensures res.Success? ==> res.value == EsSplitTableAt(r.win, old(r.pos), rev)
    ensures res.Failure? ==> res.error.ReadPastEnd?
  {
    ghost var p := r.pos;
    var count :- r.ReadInteger();
    assert count == r.win.I32At(p);
    var splits :- ReadEndSplits(r, rev, count);
    assert splits == EndSplitsAt(r.win, p + 4, rev, Count(count));
    SkipSplitTail(r, rev, count);
    res := Success(EsSplits(count, splits));
  }

  method ReadEsSplitBack(r: ByteReader, rev: int) returns (res: Result<EsBack>)
    modifies r
    ensures res.Success? ==> r.pos == old(r.pos) + EsTableSize(rev, res.value.split.count) + EsLateSize(rev)
    ensures res.Success? ==> res.value == EsSplitBackAt(r.win, old(r.pos), rev)
    ensures res.Failure? ==> res.error.ReadPastEnd?
  {
    var split :- ReadEsSplitTable(r, rev);
    var late :- ReadEsLate(r, rev);
    res := Success(EsBack(split, late.0, Some(late.1)));
  }

  method ReadEsLegacyBack(r: ByteReader) returns (res: Result<EsBack>)
    modifies r
    ensures res.Success? ==> r.pos == old(r.pos) + 36 + 4 + 400 + 2 * 364
    ensures res.Success? ==> res.value == EsLegacyBackAt(r.win, old(r.pos))
    ensures res.Failure? ==> res.error.ReadPastEnd?
  {
    var ec :- ReadECtoBOA(r);
    var count :- r.ReadInteger();
    r.IncOffset(400);
    r.IncOffset(2 * 364);
    res := Success(EsBack(EsSplits(count, []), EsShapeDefault, Some(ec)));
  }

  method ReadEsBack(r: ByteReader, rev: int) returns (res: Result<EsBack>)
    modifies r
    ensures res.Success? ==> r.pos == old(r.pos) + EsBackSize(rev, res.value.split.count)
    ensures res.Success? ==> res.value == EsBackAt(r.win, old(r.pos), rev)
    ensures res.Failure? ==> res.error.ReadPastEnd?
  {
    var back := EsBack(EsSplits(0, []), EsShapeDefault, None);
    if rev > 114 {
      back :- ReadEsSplitBack(r, rev);
    } else if rev > 111 {
      back :- ReadEsLegacyBack(r);
    }
    if ((rev <= 107) && (rev != 100)) || (rev == 115) || (rev == 500) || (rev == 501) {
      var align :- r.ReadInteger();
    }
    res := Success(back);
  }

  // ---------------------------------------------------------------------
  // The whole record.
  // ---------------------------------------------------------------------

  datatype EndSpyResult = EndSpyResult(front: EsFront, back: EsBack)

  /** The record: its front, then its back from where the front ends. */
  method ReadEndSpyResult(r: ByteReader, rev: int) returns (res: Result<EndSpyResult>)
    modifies r
    ensures res.Success? ==> r.pos == old(r.pos) + EsFrontSize(rev) + EsBackSize(rev, res.value.back.split.count)
    ensures res.Success? ==> res.value == EndSpyResult(EsFrontAt(r.win, old(r.pos), rev), EsBackAt(r.win, old(r.pos) + EsFrontSize(rev), rev))
    ensures res.Failure? ==> res.error.ReadPastEnd?
  {
    var front :- ReadEsFront(r, rev);
    var back :- ReadEsBack(r, rev);
    res := Success(EndSpyResult(front, back));
  }

  /**
   * The record sizes of the successive revisions of the record, for a
   * split count that is not negative: 64, 184, 216, 1384, 1392, 2676, 2800,
   * 2808 and 2984 bytes.
   */
  function EndSpySizeFor(rev: int): int
  {
    EsFrontSize(rev)
    + (if rev > 114 then 4 + SplitCapacity(rev) * SplitSlotSize(rev) + 2 * 364 + (if HasEdgeVoids(rev) then 2 * 244 else 0) + EsLateSize(rev)
       else if rev > 111 then 36 + 4 + 400 + 2 * 364
       else 0)
    + (if HasTrailingPad(rev) then 4 else 0)
  }

  /** With a split count that is not negative, the bytes the record takes depend on the revision alone. */
  lemma EndSpySizeTable(rev: int, count: int)
    requires rev > 114 ==> count >= 0
    ensures EsFrontSize(rev) + EsBackSize(rev, count) == EndSpySizeFor(rev)
  {
    if rev > 114 {
      SplitAreaFixed(rev, count);
    }
  }

  lemma EndSpySizes(rev: int)
    requires 90 < rev
    ensures rev <= 92 ==> EndSpySizeFor(rev) == 64
    ensures 92 < rev <= 99 || 100 < rev <= 107 ==> EndSpySizeFor(rev) == 184
    ensures rev == 100 || 107 < rev <= 111 ==> EndSpySizeFor(rev) == 216
    ensures 111 < rev <= 114 ==> EndSpySizeFor(rev) == 1384
    ensures rev == 115 || rev == 500 || rev == 501 ==> EndSpySizeFor(rev) == 1392
    ensures 115 < rev <= 117 || rev == 502 ==> EndSpySizeFor(rev) == 2676
    ensures 117 < rev <= 121 || 502 < rev <= 507 ==> EndSpySizeFor(rev) == 2800
    ensures 121 < rev <= 127 || 507 < rev <= 513 ==> EndSpySizeFor(rev) == 2808
    ensures 127 < rev < 500 || 513 < rev ==> EndSpySizeFor(rev) == 2984
  {
  }
}
