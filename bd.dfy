/**
 * readBD: the 624-byte board data block of a BRES32 file, read through a
 * reader bounded to the block's stored size. Most of it is skipped; what is
 * kept is the description, the length and wane measures, the volume and
 * class numbers, the root/centre/top widths (integers or singles by
 * revision), the cup, the thicknesses, the counts and the solution count
 * NrTWQ the BRES32 decode loops over.
 */
module Bd {
  import opened Wrappers
  import opened Bytes
  import opened Reader

  /** The description (string[30]), the optimisation time and the length measures: 52 bytes. */
  datatype BdHead = BdHead(desc: seq<uint8>, optimTimeDate: Float64, x1: int, x2: int, length: int)

  function BdHeadAt(w: Window, p: int): BdHead
  {
    BdHead(w.Slice(p, 31), w.F64At(p + 32), w.I32At(p + 40), w.I32At(p + 44), w.I32At(p + 48))
  }

  method ReadBdHead(r: ByteReader) returns (res: Result<BdHead>)
    modifies r
    ensures res.Success? ==> r.win.Within(old(r.pos), 52)
    ensures res.Success? ==> r.pos == old(r.pos) + 52 && res.value == BdHeadAt(r.win, old(r.pos))
    ensures res.Failure? ==> !r.win.Within(old(r.pos), 52) && res.error.ReadPastEnd?
  {
    var desc :- r.ReadShortString(30);
    r.IncOffset(1);
    var optimTimeDate :- r.ReadDateTime();
    var x1 :- r.ReadInteger();
    var x2 :- r.ReadInteger();
    var length :- r.ReadInteger();
    res := Success(BdHead(desc, optimTimeDate, x1, x2, length));
  }

  /** The wane areas of the width measurement; the rest of it and the thickness measurement are skipped: 164 bytes. */
  datatype BdWane = BdWane(muWaneArea: int, mdWaneArea: int)

  function BdWaneAt(w: Window, p: int): BdWane
  {
    BdWane(w.I32At(p + 56), w.I32At(p + 60))
  }

  method ReadBdWane(r: ByteReader) returns (res: Result<BdWane>)
    modifies r
    ensures res.Success? ==> r.win.Within(old(r.pos) + 56, 8)
    ensures res.Success? ==> r.pos == old(r.pos) + 164 && res.value == BdWaneAt(r.win, old(r.pos))
    ensures res.Failure? ==> !r.win.Within(old(r.pos) + 56, 8) && res.error.ReadPastEnd?
  {
    r.IncOffset(14 * 4);
    var muWaneArea :- r.ReadInteger();
    var mdWaneArea :- r.ReadInteger();
    r.IncOffset(2 * 4);
    r.IncOffset(10 * 4);
    r.IncOffset(4);
    r.IncOffset(6 * 8);
    res := Success(BdWane(muWaneArea, mdWaneArea));
  }

  /** The board volume, the class numbers and the split decision factor: 56 bytes. */
  datatype BdVolume = BdVolume(bVolume: Float64, midClNr: int, overClNr: int, splSTDecF: int)

  function BdVolumeAt(w: Window, p: int): BdVolume
  {
    BdVolume(w.F64At(p), w.I32At(p + 8), w.I32At(p + 12), w.I32At(p + 52))
  }

  method ReadBdVolume(r: ByteReader) returns (res: Result<BdVolume>)
    modifies r
    ensures res.Success? ==> r.win.Within(old(r.pos), 56)
    ensures res.Success? ==> r.pos == old(r.pos) + 56 && res.value == BdVolumeAt(r.win, old(r.pos))
    ensures res.Failure? ==> !r.win.Within(old(r.pos), 56) && res.error.ReadPastEnd?
  {
    var bVolume :- r.ReadDouble();
    var midClNr :- r.ReadInteger();
    var overClNr :- r.ReadInteger();
    r.IncOffset(8 * 4);
    var bType :- r.ReadWord();
    r.IncOffset(2);
    var splSTDecF :- r.ReadInteger();
    res := Success(BdVolume(bVolume, midClNr, overClNr, splSTDecF));
  }

  /** Whether the root, centre and top widths are stored as integers (else as singles). */
  predicate IntWidths(rev: int)
  {
    rev < 140 || (500 <= rev < 528)
  }

  /** The root, centre and top widths of the RCT control, then six skipped integers: 36 bytes. */
  datatype BdWidths = BdWidths(widRoot: Num, widCenter: Num, widTop: Num)

  /** A width as the revision stores it. */
  function WidthAt(w: Window, p: int, rev: int): Num
  {
    if IntWidths(rev) then Int(w.I32At(p)) else F32(w.F32At(p))
  }

  function BdWidthsAt(w: Window, p: int, rev: int): BdWidths
  {
    BdWidths(WidthAt(w, p, rev), WidthAt(w, p + 4, rev), WidthAt(w, p + 8, rev))
  }

  method ReadWidth(r: ByteReader, rev: int) returns (res: Result<Num>)
    modifies r
    ensures res.Success? <==> r.win.Within(old(r.pos), 4)
    ensures res.Success? ==> r.pos == old(r.pos) + 4 && res.value == WidthAt(r.win, old(r.pos), rev)
    ensures res.Failure? ==> res.error.ReadPastEnd?
  {
    if IntWidths(rev) {
      var v :- r.ReadInteger();
      res := Success(Int(v));
    } else {
      var v :- r.ReadSingle();
      res := Success(F32(v));
    }
  }

  method ReadBdWidths(r: ByteReader, rev: int) returns (res: Result<BdWidths>)
    modifies r
    ensures res.Success? ==> r.win.Within(old(r.pos), 12)
    ensures res.Success? ==> r.pos == old(r.pos) + 36 && res.value == BdWidthsAt(r.win, old(r.pos), rev)
    ensures res.Failure? ==> !r.win.Within(old(r.pos), 12) && res.error.ReadPastEnd?
  {
    var widRoot :- ReadWidth(r, rev);
    var widCenter :- ReadWidth(r, rev);
    var widTop :- ReadWidth(r, rev);
    r.IncOffset(6 * 4);
    res := Success(BdWidths(widRoot, widCenter, widTop));
  }

  /** The cup of the warp measure and the Suro thickness; the regression block is skipped: 124 bytes. */
  datatype BdWarp = BdWarp(cupDim: int, suroThickn: Float64)

  function BdWarpAt(w: Window, p: int): BdWarp
  {
    BdWarp(w.I32At(p + 12), w.F64At(p + 28))
  }

  method ReadBdWarp(r: ByteReader) returns (res: Result<BdWarp>)
    modifies r
    ensures res.Success? ==> r.win.Within(old(r.pos) + 12, 24)
    ensures res.Success? ==> r.pos == old(r.pos) + 124 && res.value == BdWarpAt(r.win, old(r.pos))
    ensures res.Failure? ==> !r.win.Within(old(r.pos) + 12, 24) && res.error.ReadPastEnd?
  {
    r.IncOffset(3 * 4);
    var cupDim :- r.ReadInteger();
    r.IncOffset(4);
    r.IncOffset(2 * 4);
    var suroThickn :- r.ReadDouble();
    r.IncOffset(8 * 8 + 6 * 4);
    res := Success(BdWarp(cupDim, suroThickn));
  }

  /** The optimised thickness, the counts, the optimisation times and the solution count: 28 bytes. */
  datatype BdCounts = BdCounts(optThickn: Float64, bCount: int, extCount: int, optTime: int, optTimeSum: int, nrTWQ: int)

  function BdCountsAt(w: Window, p: int): BdCounts
  {
    BdCounts(w.F64At(p), w.I32At(p + 8), w.I32At(p + 12), w.I32At(p + 16), w.I32At(p + 20), w.I32At(p + 24))
  }

  method ReadBdCounts(r: ByteReader) returns (res: Result<BdCounts>)
    modifies r
    ensures res.Success? ==> r.win.Within(old(r.pos), 28)
    ensures res.Success? ==> r.pos == old(r.pos) + 28 && res.value == BdCountsAt(r.win, old(r.pos))
    ensures res.Failure? ==> !r.win.Within(old(r.pos), 28) && res.error.ReadPastEnd?
  {
    var optThickn :- r.ReadDouble();
    var bCount :- r.ReadInteger();
    var extCount :- r.ReadInteger();
    var optTime :- r.ReadInteger();
    var optTimeSum :- r.ReadInteger();
    var nrTWQ :- r.ReadInteger();
    res := Success(BdCounts(optThickn, bCount, extCount, optTime, optTimeSum, nrTWQ));
  }

  /**
   * The average and the target width; the skew end corrections, the
   * rejection type, the taper and the knot distances are skipped: 164 bytes.
   */
  datatype BdTarget = BdTarget(aveW: Float64, targetW: Float32)

  function BdTargetAt(w: Window, p: int): BdTarget
  {
    BdTarget(w.F64At(p + 92), w.F32At(p + 124))
  }

  method ReadBdTarget(r: ByteReader) returns (res: Result<BdTarget>)
    modifies r
    ensures res.Success? ==> r.win.Within(old(r.pos) + 92, 36)
    ensures res.Success? ==> r.pos == old(r.pos) + 164 && res.value == BdTargetAt(r.win, old(r.pos))
    ensures res.Failure? ==> !r.win.Within(old(r.pos) + 92, 36) && res.error.ReadPastEnd?
  {
    r.IncOffset(11 * 4);
    r.IncOffset(4 * 8);
    r.IncOffset(1);
    r.IncOffset(3);
    r.IncOffset(4);
    r.IncOffset(2 * 4);
    var aveW :- r.ReadDouble();
    r.IncOffset(5 * 4 + 4);
    var targetW :- r.ReadSingle();
    r.IncOffset(8 * 4 + 2 + 2 * 1);
    res := Success(BdTarget(aveW, targetW));
  }

  // ---------------------------------------------------------------------
  // The whole block.
  // ---------------------------------------------------------------------

  datatype BD = BD(head: BdHead, wane: BdWane, volume: BdVolume, widths: BdWidths, warp: BdWarp, counts: BdCounts,
                   target: BdTarget)

  /** The bytes readBD moves over, whatever the revision. */
  const BdSize := 624

  /** Where the last read of the block ends. */
  const BdReadEnd := 588

  function BdAt(w: Window, p: int, rev: int): BD
  {
    BD(BdHeadAt(w, p), BdWaneAt(w, p + 52), BdVolumeAt(w, p + 216), BdWidthsAt(w, p + 272, rev), BdWarpAt(w, p + 308),
       BdCountsAt(w, p + 432), BdTargetAt(w, p + 460))
  }

  /** readBD. */
  method ReadBD(r: ByteReader, rev: int) returns (res: Result<BD>)
    modifies r
    ensures res.Success? ==> r.win.Within(old(r.pos), BdReadEnd)
    ensures res.Success? ==> r.pos == old(r.pos) + BdSize && res.value == BdAt(r.win, old(r.pos), rev)
    ensures res.Failure? ==> res.error.ReadPastEnd?
  {
    ghost var p := r.pos;
    var head :- ReadBdHead(r);
    var wane :- ReadBdWane(r);
    assert r.pos == p + 216;
    var volume :- ReadBdVolume(r);
    var widths :- ReadBdWidths(r, rev);
    assert r.pos == p + 308;
    var warp :- ReadBdWarp(r);
    var counts :- ReadBdCounts(r);
    assert r.pos == p + 460;
    var target :- ReadBdTarget(r);
    assert head == BdHeadAt(r.win, p) && wane == BdWaneAt(r.win, p + 52) && volume == BdVolumeAt(r.win, p + 216);
    assert widths == BdWidthsAt(r.win, p + 272, rev) && warp == BdWarpAt(r.win, p + 308);
    assert counts == BdCountsAt(r.win, p + 432) && target == BdTargetAt(r.win, p + 460);
    res := Success(BD(head, wane, volume, widths, warp, counts, target));
  }

  /**
   * The solution count sits 456 bytes into the block, and the three widths
   * are integers up to revision 139 and from 500 to 527, singles otherwise.
   */
  lemma BdLayout(w: Window, p: int, rev: int)
    ensures BdAt(w, p, rev).counts.nrTWQ == w.I32At(p + 456)
    ensures BdAt(w, p, rev).widths.widRoot.Int? <==> (rev < 140 || (500 <= rev < 528))
    ensures BdAt(w, p, rev).widths.widTop.F32? <==> (rev >= 528 || (140 <= rev < 500))
    ensures BdAt(w, p, rev).warp.suroThickn == w.F64At(p + 336)
  {
  }
}
