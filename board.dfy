/**
 * The board record of an optimisation result file (ReadOptBoardRecFileStream):
 * the board's geometry, the defects of its four sides, the per-slice scan
 * data, the thickness heads and board end points, the main header read
 * through a bounded sub-reader, the moisture readings, the EndSpy and
 * MoistSpy results with their version fixes, the slice data and the PLS
 * values. Each part is read by a method whose contract ties its value and
 * its end position to a function of the window, so that the board as a
 * whole is such a function too.
 *
 * Arrays of the source are 1-based; here slice `i` of the source is
 * element `i - 1` of a sequence.
 */
module Board {
  import opened Wrappers
  import opened Bytes
  import opened Reader
  import opened Arrays
  import opened Revision
  import opened Defects
  import opened Texture
  import opened Thickness
  import opened Header
  import opened EndSpy
  import opened MoistSpy

  /** The slice capacity of the scanner a revision belongs to: NOVA 10, NOVA 6 or HD. */
  function NumOfSlices(rev: int): (n: nat)
    ensures n == 1320 || n == 792 || n == 396
  {
    if rev >= 505 then 1320 else if rev >= 500 then 792 else 396
  }

  // ---------------------------------------------------------------------
  // Geometry: the slice count and, per slice, its x and ten (y, z) points.
  // ---------------------------------------------------------------------

  /** A geometry point: small integers before revision 44, singles from then on. */
  datatype GeomPoint = GeomPoint(y: Num, z: Num)

  datatype GeomSlice = GeomSlice(x: int, points: seq<GeomPoint>)

  datatype BoardGeom = BoardGeom(np: int, slices: seq<GeomSlice>)

  const GeomPointCount := 10

  function GeomPointSize(rev: int): nat { if rev < 44 then 4 else 8 }

  function GeomSliceSize(rev: int): nat { 2 + GeomPointCount * GeomPointSize(rev) }

  function GeomPointAt(w: Window, q: int, rev: int): GeomPoint
  {
    if rev < 44 then GeomPoint(Int(w.I16At(q)), Int(w.I16At(q + 2)))
    else GeomPoint(F32(w.F32At(q)), F32(w.F32At(q + 4)))
  }

  function GeomPointReader(w: Window, rev: int): int -> GeomPoint { q => GeomPointAt(w, q, rev) }

  function GeomSliceAt(w: Window, q: int, rev: int): GeomSlice
  {
    GeomSlice(w.I16At(q), RunAt(GeomPointReader(w, rev), q + 2, GeomPointSize(rev), GeomPointCount))
  }

  function GeomSliceReader(w: Window, rev: int): int -> GeomSlice { q => GeomSliceAt(w, q, rev) }

  /** The slice count, then as many slices as it counts (none when it is not positive). */
  function BoardGeomAt(w: Window, p: int, rev: int): BoardGeom
  {
    BoardGeom(w.I16At(p), RunAt(GeomSliceReader(w, rev), p + 2, GeomSliceSize(rev), Count(w.I16At(p))))
  }

  function BoardGeomSize(rev: int, np: int): int { 2 + Count(np) * GeomSliceSize(rev) }

  method ReadGeomPoint(r: ByteReader, rev: int) returns (res: Result<GeomPoint>)
    modifies r
    ensures res.Success? <==> r.win.Within(old(r.pos), GeomPointSize(rev))
    ensures res.Success? ==> r.pos == old(r.pos) + GeomPointSize(rev) && res.value == GeomPointAt(r.win, old(r.pos), rev)
    ensures res.Failure? ==> res.error.ReadPastEnd?
  {
    if rev < 44 {
      var y :- r.ReadSmallInt();
      var z :- r.ReadSmallInt();
      res := Success(GeomPoint(Int(y), Int(z)));
    } else {
      var y :- r.ReadSingle();
      var z :- r.ReadSingle();
      res := Success(GeomPoint(F32(y), F32(z)));
    }
  }

  method ReadGeomSlice(r: ByteReader, rev: int) returns (res: Result<GeomSlice>)
    modifies r
    ensures res.Success? ==> r.pos == old(r.pos) + GeomSliceSize(rev) && res.value == GeomSliceAt(r.win, old(r.pos), rev)
    ensures res.Failure? ==> res.error.ReadPastEnd?
  {
    ghost var p0 := r.pos;
    var x :- r.ReadSmallInt();
    var points: seq<GeomPoint> := [];
    var j := 0;
    while j < GeomPointCount
      invariant 0 <= j <= GeomPointCount
      invariant r.pos == p0 + 2 + j * GeomPointSize(rev)
      invariant points == RunAt(GeomPointReader(r.win, rev), p0 + 2, GeomPointSize(rev), j)
    {
      ghost var q := r.pos;
      var pt :- ReadGeomPoint(r, rev);
      RunAtStep(GeomPointReader(r.win, rev), p0 + 2, GeomPointSize(rev), j, q, pt);
      points := points + [pt];
      j := j + 1;
    }
    res := Success(GeomSlice(x, points));
  }

  method ReadBoardGeom(r: ByteReader, rev: int) returns (res: Result<BoardGeom>)
    modifies r
    ensures res.Success? ==> r.pos == old(r.pos) + BoardGeomSize(rev, res.value.np) && res.value == BoardGeomAt(r.win, old(r.pos), rev)
    ensures res.Failure? ==> res.error.ReadPastEnd?
  {
    ghost var p0 := r.pos;
    var np :- r.ReadSmallInt();
    var slices: seq<GeomSlice> := [];
    var i := 0;
    while i < Count(np)
      invariant 0 <= i <= Count(np)
      invariant r.pos == p0 + 2 + i * GeomSliceSize(rev)
      invariant slices == RunAt(GeomSliceReader(r.win, rev), p0 + 2, GeomSliceSize(rev), i)
    {
      ghost var q := r.pos;
      var s :- ReadGeomSlice(r, rev);
      RunAtStep(GeomSliceReader(r.win, rev), p0 + 2, GeomSliceSize(rev), i, q, s);
      slices := slices + [s];
      i := i + 1;
    }
    res := Success(BoardGeom(np, slices));
  }

  /** The geometry holds one slice per counted slice and ten points in each; their kind follows the revision. */
  lemma BoardGeomShape(w: Window, p: int, rev: int, i: nat, j: nat)
    requires i < Count(w.I16At(p)) && j < GeomPointCount
    ensures |BoardGeomAt(w, p, rev).slices| == Count(BoardGeomAt(w, p, rev).np)
    ensures |BoardGeomAt(w, p, rev).slices[i].points| == GeomPointCount
    ensures BoardGeomAt(w, p, rev).slices[i].x == w.I16At(p + 2 + i * GeomSliceSize(rev))
    ensures rev < 44 ==> BoardGeomAt(w, p, rev).slices[i].points[j].y.Int?
    ensures rev >= 44 ==> BoardGeomAt(w, p, rev).slices[i].points[j].z.F32?
  {
    RunAtIndex(GeomSliceReader(w, rev), p + 2, GeomSliceSize(rev), Count(w.I16At(p)), i);
    var q := p + 2 + i * GeomSliceSize(rev);
    RunAtIndex(GeomPointReader(w, rev), q + 2, GeomPointSize(rev), GeomPointCount, j);
  }

  // ---------------------------------------------------------------------
  // Defects: each side's count and defects, the extended informations
  // from revision 34, and the combined knots and shakes from revision 82.
  // ---------------------------------------------------------------------

  datatype SideDefects = SideDefects(count: int, defects: seq<Defect>)

  /** The sides in the order of the file: up, down, front, rear. */
  datatype FourSides = FourSides(u: SideDefects, d: SideDefects, f: SideDefects, r: SideDefects)

  datatype ExtInfos = ExtInfos(u: seq<ExtDefectInfo>, d: seq<ExtDefectInfo>, f: seq<ExtDefectInfo>, r: seq<ExtDefectInfo>)

  /** The sides; their extended informations (absent before revision 34); the combined defects (absent, counts 0, before 82). */
  datatype BoardDefects = BoardDefects(sides: FourSides, ext: Option<ExtInfos>, combi: Option<CombiDefects>)

  function SideDefectsAt(w: Window, p: int, rev: int): SideDefects
  {
    SideDefects(w.I16At(p), DefectsAt(w, p + 2, rev, Count(w.I16At(p))))
  }

  function SideDefectsEnd(w: Window, p: int, rev: int): int
  {
    p + 2 + DefectsSize(w, p + 2, rev, Count(w.I16At(p)))
  }

  method ReadSideDefects(r: ByteReader, rev: int) returns (res: Result<SideDefects>)
    modifies r
    ensures res.Success? ==> r.pos == SideDefectsEnd(r.win, old(r.pos), rev) && res.value == SideDefectsAt(r.win, old(r.pos), rev)
    ensures res.Failure? ==> res.error.ReadPastEnd?
  {
    var n :- r.ReadSmallInt();
    var defects :- ReadDefectsFromStream(r, rev, n);
    res := Success(SideDefects(n, defects));
  }

  function FourSidesAt(w: Window, p: int, rev: int): FourSides
  {
    var p1 := SideDefectsEnd(w, p, rev);
    var p2 := SideDefectsEnd(w, p1, rev);
    var p3 := SideDefectsEnd(w, p2, rev);
    FourSides(SideDefectsAt(w, p, rev), SideDefectsAt(w, p1, rev), SideDefectsAt(w, p2, rev), SideDefectsAt(w, p3, rev))
  }

  function FourSidesEnd(w: Window, p: int, rev: int): int
  {
    SideDefectsEnd(w, SideDefectsEnd(w, SideDefectsEnd(w, SideDefectsEnd(w, p, rev), rev), rev), rev)
  }

  method ReadFourSides(r: ByteReader, rev: int) returns (res: Result<FourSides>)
    modifies r
    ensures res.Success? ==> r.pos == FourSidesEnd(r.win, old(r.pos), rev) && res.value == FourSidesAt(r.win, old(r.pos), rev)
    ensures res.Failure? ==> res.error.ReadPastEnd?
  {
    var u :- ReadSideDefects(r, rev);
    var d :- ReadSideDefects(r, rev);
    var f :- ReadSideDefects(r, rev);
    var rr :- ReadSideDefects(r, rev);
    res := Success(FourSides(u, d, f, rr));
  }

  /** The bytes of `n` extended informations (none when `n` is not positive). */
  function ExtRunSize(rev: int, n: int): int { Count(n) * ExtDefectInfoSize(rev) }

  /** The extended informations of one side: what ReadExtDefectInfosToStream reads and where it ends. */
  method ReadSideExtInfos(r: ByteReader, rev: int, n: int) returns (res: Result<seq<ExtDefectInfo>>)
    modifies r
    ensures res.Success? ==> r.pos == old(r.pos) + ExtRunSize(rev, n) && res.value == ExtDefectInfosAt(r.win, old(r.pos), rev, Count(n))
    ensures res.Failure? ==> res.error.ReadPastEnd?
  {
    res := ReadExtDefectInfosToStream(r, rev, n);
  }

  /** The extended informations of two sides, one after the other. */
  function ExtPairAt(w: Window, q: int, rev: int, n1: int, n2: int): (seq<ExtDefectInfo>, seq<ExtDefectInfo>)
  {
    (ExtDefectInfosAt(w, q, rev, Count(n1)), ExtDefectInfosAt(w, q + ExtRunSize(rev, n1), rev, Count(n2)))
  }

  method ReadExtPair(r: ByteReader, rev: int, n1: int, n2: int) returns (res: Result<(seq<ExtDefectInfo>, seq<ExtDefectInfo>)>)
    modifies r
    ensures res.Success? ==> r.pos == old(r.pos) + ExtRunSize(rev, n1) + ExtRunSize(rev, n2) && res.value == ExtPairAt(r.win, old(r.pos), rev, n1, n2)
    ensures res.Failure? ==> res.error.ReadPastEnd?
  {
    var a :- ReadSideExtInfos(r, rev, n1);
    var b :- ReadSideExtInfos(r, rev, n2);
    res := Success((a, b));
  }

  /** The extended informations, one per defect of each side, in the order of the sides. */
  function ExtInfosAt(w: Window, q: int, rev: int, s: FourSides): ExtInfos
  {
    var ud := ExtPairAt(w, q, rev, s.u.count, s.d.count);
    var fr := ExtPairAt(w, q + ExtRunSize(rev, s.u.count) + ExtRunSize(rev, s.d.count), rev, s.f.count, s.r.count);
    ExtInfos(ud.0, ud.1, fr.0, fr.1)
  }

  function ExtInfosEnd(q: int, rev: int, s: FourSides): int
  {
    q + ExtRunSize(rev, s.u.count) + ExtRunSize(rev, s.d.count) + ExtRunSize(rev, s.f.count) + ExtRunSize(rev, s.r.count)
  }

  method ReadExtInfos(r: ByteReader, rev: int, s: FourSides) returns (res: Result<ExtInfos>)
    modifies r
    ensures res.Success? ==> r.pos == ExtInfosEnd(old(r.pos), rev, s) && res.value == ExtInfosAt(r.win, old(r.pos), rev, s)
    ensures res.Failure? ==> res.error.ReadPastEnd?
  {
    var ud :- ReadExtPair(r, rev, s.u.count, s.d.count);
    var fr :- ReadExtPair(r, rev, s.f.count, s.r.count);
    res := Success(ExtInfos(ud.0, ud.1, fr.0, fr.1));
  }

  /** A count of combined defects and the defects it counts. */
  datatype CombiRun = CombiRun(count: int, defects: seq<CombiDefect>)

  /** The combined knots, then the combined shakes. */
  datatype CombiDefects = CombiDefects(knots: CombiRun, shakes: CombiRun)

  function CombiRunAt(w: Window, q: int, rev: int): CombiRun
  {
    CombiRun(w.I16At(q), CombiDefectsAt(w, q + 2, rev, Count(w.I16At(q))))
  }

  function CombiRunSize(rev: int, c: CombiRun): int { 2 + Count(c.count) * CombiDefectSize(rev) }

  method ReadCombiRun(r: ByteReader, rev: int) returns (res: Result<CombiRun>)
    modifies r
    ensures res.Success? ==> r.pos == old(r.pos) + CombiRunSize(rev, res.value) && res.value == CombiRunAt(r.win, old(r.pos), rev)
    ensures res.Failure? ==> res.error.ReadPastEnd?
  {
    var n :- r.ReadSmallInt();
    var defects :- ReadCombiDefectsFromStream(r, rev, n);
    res := Success(CombiRun(n, defects));
  }

  function BoardCombiAt(w: Window, q: int, rev: int): CombiDefects
  {
    var knots := CombiRunAt(w, q, rev);
    CombiDefects(knots, CombiRunAt(w, q + CombiRunSize(rev, knots), rev))
  }

  function CombiSize(rev: int, c: CombiDefects): int { CombiRunSize(rev, c.knots) + CombiRunSize(rev, c.shakes) }

  method ReadCombiDefects(r: ByteReader, rev: int) returns (res: Result<CombiDefects>)
    modifies r
    ensures res.Success? ==> r.pos == old(r.pos) + CombiSize(rev, res.value) && res.value == BoardCombiAt(r.win, old(r.pos), rev)
    ensures res.Failure? ==> res.error.ReadPastEnd?
  {
    var knots :- ReadCombiRun(r, rev);
    var shakes :- ReadCombiRun(r, rev);
    res := Success(CombiDefects(knots, shakes));
  }

  function BoardDefectsAt(w: Window, p: int, rev: int): BoardDefects
  {
    var s := FourSidesAt(w, p, rev);
    var q := FourSidesEnd(w, p, rev);
    var q2 := if rev > 33 then ExtInfosEnd(q, rev, s) else q;
    BoardDefects(s, if rev > 33 then Some(ExtInfosAt(w, q, rev, s)) else None,
                 if rev > 81 then Some(BoardCombiAt(w, q2, rev)) else None)
  }

  function BoardDefectsEnd(w: Window, p: int, rev: int): int
  {
    var s := FourSidesAt(w, p, rev);
    var q := FourSidesEnd(w, p, rev);
    var q2 := if rev > 33 then ExtInfosEnd(q, rev, s) else q;
    if rev > 81 then q2 + CombiSize(rev, BoardCombiAt(w, q2, rev)) else q2
  }

  method ReadBoardDefects(r: ByteReader, rev: int) returns (res: Result<BoardDefects>)
    modifies r
    ensures res.Success? ==> r.pos == BoardDefectsEnd(r.win, old(r.pos), rev) && res.value == BoardDefectsAt(r.win, old(r.pos), rev)
    ensures res.Failure? ==> res.error.ReadPastEnd?
  {
    var sides :- ReadFourSides(r, rev);
    var ext := None;
    if rev > 33 {
      var e :- ReadExtInfos(r, rev, sides);
      ext := Some(e);
    }
    var combi := None;
    if rev > 81 {
      var c :- ReadCombiDefects(r, rev);
      combi := Some(c);
    }
    res := Success(BoardDefects(sides, ext, combi));
  }

  /** The combined knot and shake counts of the record: 0 before revision 82. */
  function NCK(d: BoardDefects): int { if d.combi.Some? then d.combi.value.knots.count else 0 }
  function NCS(d: BoardDefects): int { if d.combi.Some? then d.combi.value.shakes.count else 0 }

  /** Every side has as many extended informations as defects, and the parts present follow the revision. */
  lemma BoardDefectsShape(w: Window, p: int, rev: int)
    ensures var d := BoardDefectsAt(w, p, rev);
      (d.ext.Some? <==> rev > 33) && (d.combi.Some? <==> rev > 81)
      && |d.sides.u.defects| == Count(d.sides.u.count) && |d.sides.r.defects| == Count(d.sides.r.count)
      && (d.ext.Some? ==>
            |d.ext.value.u| == |d.sides.u.defects| && |d.ext.value.d| == |d.sides.d.defects| &&
            |d.ext.value.f| == |d.sides.f.defects| && |d.ext.value.r| == |d.sides.r.defects|)
      && (rev <= 81 ==> NCK(d) == 0 && NCS(d) == 0)
  {
  }

  // ---------------------------------------------------------------------
  // Per-slice scan data: pinworm and saw-step bytes per geometry slice,
  // light levels, the texture blocks, the pith array, and the sapwood
  // block, which is skipped.
  // ---------------------------------------------------------------------

  datatype PinWorm = PinWorm(pin: int, worm: int)

  /** The pinworm bytes of one slice for the up, down, front and rear sides. */
  datatype SlicePinWorm = SlicePinWorm(u: PinWorm, d: PinWorm, f: PinWorm, r: PinWorm)

  /** The saw-step depths of one slice, up and down, in tenths of a millimetre. */
  datatype SawStep = SawStep(u: int, d: int)

  function PinWormAt(w: Window, q: int): PinWorm { PinWorm(w.U8At(q), w.U8At(q + 1)) }

  function SlicePinWormAt(w: Window, q: int): SlicePinWorm
  {
    SlicePinWorm(PinWormAt(w, q), PinWormAt(w, q + 2), PinWormAt(w, q + 4), PinWormAt(w, q + 6))
  }

  function SlicePinWormReader(w: Window): int -> SlicePinWorm { q => SlicePinWormAt(w, q) }

  function SawStepAt(w: Window, q: int): SawStep { SawStep(w.U8At(q), w.U8At(q + 1)) }

  function SawStepReader(w: Window): int -> SawStep { q => SawStepAt(w, q) }

  method ReadPinWorm(r: ByteReader) returns (res: Result<PinWorm>)
    modifies r
    ensures res.Success? <==> r.win.Within(old(r.pos), 2)
    ensures res.Success? ==> r.pos == old(r.pos) + 2 && res.value == PinWormAt(r.win, old(r.pos))
    ensures res.Failure? ==> res.error.ReadPastEnd?
  {
    var pin :- r.ReadByte();
    var worm :- r.ReadByte();
    res := Success(PinWorm(pin, worm));
  }

  method ReadSlicePinWorm(r: ByteReader) returns (res: Result<SlicePinWorm>)
    modifies r
    ensures res.Success? ==> r.pos == old(r.pos) + 8 && res.value == SlicePinWormAt(r.win, old(r.pos))
    ensures res.Failure? ==> res.error.ReadPastEnd?
  {
    var u :- ReadPinWorm(r);
    var d :- ReadPinWorm(r);
    var f :- ReadPinWorm(r);
    var rr :- ReadPinWorm(r);
    res := Success(SlicePinWorm(u, d, f, rr));
  }

  method ReadSawStep(r: ByteReader) returns (res: Result<SawStep>)
    modifies r
    ensures res.Success? <==> r.win.Within(old(r.pos), 2)
    ensures res.Success? ==> r.pos == old(r.pos) + 2 && res.value == SawStepAt(r.win, old(r.pos))
    ensures res.Failure? ==> res.error.ReadPastEnd?
  {
    var u :- r.ReadByte();
    var d :- r.ReadByte();
    res := Success(SawStep(u, d));
  }

  /** The pinworm bytes of the `n` geometry slices, from revision 32. */
  method ReadPinWorms(r: ByteReader, n: int) returns (res: Result<seq<SlicePinWorm>>)
    modifies r
    ensures res.Success? ==> r.pos == old(r.pos) + Count(n) * 8 && res.value == RunAt(SlicePinWormReader(r.win), old(r.pos), 8, Count(n))
    ensures res.Failure? ==> res.error.ReadPastEnd?
  {
    ghost var p0 := r.pos;
    var acc: seq<SlicePinWorm> := [];
    var i := 0;
    while i < Count(n)
      invariant 0 <= i <= Count(n)
      invariant r.pos == p0 + i * 8
      invariant acc == RunAt(SlicePinWormReader(r.win), p0, 8, i)
    {
      ghost var q := r.pos;
      var x :- ReadSlicePinWorm(r);
      RunAtStep(SlicePinWormReader(r.win), p0, 8, i, q, x);
      acc := acc + [x];
      i := i + 1;
    }
    res := Success(acc);
  }

  /** The saw-step bytes of the `n` geometry slices, from revision 41. */
  method ReadSawSteps(r: ByteReader, n: int) returns (res: Result<seq<SawStep>>)
    modifies r
    ensures res.Success? ==> Count(n) == 0 || r.win.Within(old(r.pos), Count(n) * 2)
    ensures res.Success? ==> r.pos == old(r.pos) + Count(n) * 2 && res.value == RunAt(SawStepReader(r.win), old(r.pos), 2, Count(n))
    ensures res.Failure? ==> Count(n) > 0 && !r.win.Within(old(r.pos), Count(n) * 2) && res.error.ReadPastEnd?
  {
    ghost var p0 := r.pos;
    var acc: seq<SawStep> := [];
    var i := 0;
    while i < Count(n)
      invariant 0 <= i <= Count(n)
      invariant r.pos == p0 + i * 2
      invariant i > 0 ==> r.win.Within(p0, i * 2)
      invariant acc == RunAt(SawStepReader(r.win), p0, 2, i)
    {
      MulMonotone(2, i + 1, Count(n));
      ghost var q := r.pos;
      var x :- ReadSawStep(r);
      RunAtStep(SawStepReader(r.win), p0, 2, i, q, x);
      acc := acc + [x];
      i := i + 1;
    }
    res := Success(acc);
  }

  /** The colour triples of one slice: up, down, up-front and up-rear. */
  datatype LightQuad = LightQuad(u: seq<uint8>, d: seq<uint8>, uf: seq<uint8>, ur: seq<uint8>)

  /**
   * The light levels. Before revision 32 there are none; up to 91 the 12
   * bytes per geometry slice are skipped; up to 521 a fixed number of
   * slices holds four colour triples each; from 522 six tables of triples
   * follow one another (up, up-front, up-rear, down, down-front, down-rear).
   */
  datatype LightLevels =
    | NoLightLevels
    | SkippedLightLevels
    | InterleavedLight(quads: seq<LightQuad>)
    | SeparateLight(u: seq<seq<uint8>>, uf: seq<seq<uint8>>, ur: seq<seq<uint8>>,
                    d: seq<seq<uint8>>, df: seq<seq<uint8>>, dr: seq<seq<uint8>>)

  function LightQuadAt(w: Window, q: int): LightQuad
  {
    LightQuad(w.Slice(q, 3), w.Slice(q + 3, 3), w.Slice(q + 6, 3), w.Slice(q + 9, 3))
  }

  function LightQuadReader(w: Window): int -> LightQuad { q => LightQuadAt(w, q) }

  method ReadLightQuad(r: ByteReader) returns (res: Result<LightQuad>)
    modifies r
    ensures res.Success? ==> r.pos == old(r.pos) + 12 && res.value == LightQuadAt(r.win, old(r.pos))
    ensures res.Failure? ==> res.error.ReadPastEnd?
  {
    var u :- r.ReadByteArray(3);
    var d :- r.ReadByteArray(3);
    var uf :- r.ReadByteArray(3);
    var ur :- r.ReadByteArray(3);
    res := Success(LightQuad(u, d, uf, ur));
  }

  method ReadInterleavedLight(r: ByteReader, n: nat) returns (res: Result<seq<LightQuad>>)
    modifies r
    ensures res.Success? ==> r.pos == old(r.pos) + n * 12 && res.value == RunAt(LightQuadReader(r.win), old(r.pos), 12, n)
    ensures res.Failure? ==> res.error.ReadPastEnd?
  {
    ghost var p0 := r.pos;
    var acc: seq<LightQuad> := [];
    var i := 0;
    while i < n
      invariant 0 <= i <= n
      invariant r.pos == p0 + i * 12
      invariant acc == RunAt(LightQuadReader(r.win), p0, 12, i)
    {
      ghost var q := r.pos;
      var x :- ReadLightQuad(r);
      RunAtStep(LightQuadReader(r.win), p0, 12, i, q, x);
      acc := acc + [x];
      i := i + 1;
    }
    res := Success(acc);
  }

  /** Three tables of `n` colour triples one after the other. */
  function LightTriplesAt(w: Window, q: int, n: nat): (seq<seq<uint8>>, seq<seq<uint8>>, seq<seq<uint8>>)
  {
    (SlicesAt(w, q, n, 3), SlicesAt(w, q + 3 * n, n, 3), SlicesAt(w, q + 6 * n, n, 3))
  }

  method ReadLightTriples(r: ByteReader, n: nat) returns (res: Result<(seq<seq<uint8>>, seq<seq<uint8>>, seq<seq<uint8>>)>)
    modifies r
    ensures res.Success? ==> r.pos == old(r.pos) + 9 * n && res.value == LightTriplesAt(r.win, old(r.pos), n)
    ensures res.Failure? ==> res.error.ReadPastEnd?
  {
    var a :- ReadByteArrays(r, n, 3);
    var b :- ReadByteArrays(r, n, 3);
    var c :- ReadByteArrays(r, n, 3);
    res := Success((a, b, c));
  }

  function SeparateLightAt(w: Window, q: int, n: nat): LightLevels
  {
    var up := LightTriplesAt(w, q, n);
    var down := LightTriplesAt(w, q + 9 * n, n);
    SeparateLight(up.0, up.1, up.2, down.0, down.1, down.2)
  }

  method ReadSeparateLight(r: ByteReader, n: nat) returns (res: Result<LightLevels>)
    modifies r
    ensures res.Success? ==> r.pos == old(r.pos) + 18 * n && res.value == SeparateLightAt(r.win, old(r.pos), n)
    ensures res.Failure? ==> res.error.ReadPastEnd?
  {
    var up :- ReadLightTriples(r, n);
    var down :- ReadLightTriples(r, n);
    res := Success(SeparateLight(up.0, up.1, up.2, down.0, down.1, down.2));
  }

  function LightLevelsAt(w: Window, q: int, rev: int): LightLevels
  {
    if rev > 91 then
      (if rev < 522 then InterleavedLight(RunAt(LightQuadReader(w), q, 12, NumOfSlices(rev)))
       else SeparateLightAt(w, q, NumOfSlices(rev)))
    else if rev > 31 then SkippedLightLevels
    else NoLightLevels
  }

  /** The bytes the light levels take; the skip of revisions 32 to 91 follows the signed slice count. */
  function LightLevelsSize(rev: int, np: int): int
  {
    if rev > 91 then (if rev < 522 then 12 * NumOfSlices(rev) else 18 * NumOfSlices(rev))
    else if rev > 31 then np * 3 * 4
    else 0
  }

  method ReadLightLevels(r: ByteReader, rev: int, np: int) returns (res: Result<LightLevels>)
    modifies r
    ensures res.Success? ==> r.pos == old(r.pos) + LightLevelsSize(rev, np) && res.value == LightLevelsAt(r.win, old(r.pos), rev)
    ensures res.Failure? ==> res.error.ReadPastEnd?
  {
    if rev > 91 {
      var n := NumOfSlices(rev);
      if rev < 522 {
        var quads :- ReadInterleavedLight(r, n);
        res := Success(InterleavedLight(quads));
      } else {
        res := ReadSeparateLight(r, n);
      }
    } else if rev > 31 {
      r.IncOffset(np * 3 * 4);
      res := Success(SkippedLightLevels);
    } else {
      res := Success(NoLightLevels);
    }
  }

  /** A pith point: y, then z as a single (after an unused small integer) from revision 78, as a small integer before. */
  datatype PithPoint = PithPoint(y: int, z: Num)

  function PithPointSize(rev: int): nat { if rev > 77 then 8 else 4 }

  function PithPointAt(w: Window, q: int, rev: int): PithPoint
  {
    if rev > 77 then PithPoint(w.I16At(q), F32(w.F32At(q + 4))) else PithPoint(w.I16At(q), Int(w.I16At(q + 2)))
  }

  function PithPointReader(w: Window, rev: int): int -> PithPoint { q => PithPointAt(w, q, rev) }

  method ReadPithPoint(r: ByteReader, rev: int) returns (res: Result<PithPoint>)
    modifies r
    ensures res.Success? <==> r.win.Within(old(r.pos), PithPointSize(rev))
    ensures res.Success? ==> r.pos == old(r.pos) + PithPointSize(rev) && res.value == PithPointAt(r.win, old(r.pos), rev)
    ensures res.Failure? ==> res.error.ReadPastEnd?
  {
    var y :- r.ReadSmallInt();
    if rev > 77 {
      var offset :- r.ReadSmallInt();
      var z :- r.ReadSingle();
      res := Success(PithPoint(y, F32(z)));
    } else {
      var z :- r.ReadSmallInt();
      res := Success(PithPoint(y, Int(z)));
    }
  }

  method ReadPithArray(r: ByteReader, rev: int, n: nat) returns (res: Result<seq<PithPoint>>)
    modifies r
    ensures res.Success? ==> r.pos == old(r.pos) + n * PithPointSize(rev) && res.value == RunAt(PithPointReader(r.win, rev), old(r.pos), PithPointSize(rev), n)
    ensures res.Failure? ==> res.error.ReadPastEnd?
  {
    ghost var p0 := r.pos;
    var acc: seq<PithPoint> := [];
    var i := 0;
    while i < n
      invariant 0 <= i <= n
      invariant r.pos == p0 + i * PithPointSize(rev)
      invariant acc == RunAt(PithPointReader(r.win, rev), p0, PithPointSize(rev), i)
    {
      ghost var q := r.pos;
      var x :- ReadPithPoint(r, rev);
      RunAtStep(PithPointReader(r.win, rev), p0, PithPointSize(rev), i, q, x);
      acc := acc + [x];
      i := i + 1;
    }
    res := Success(acc);
  }

  /** The four XU texture blocks (up, down, front, rear) from revision 74; their contents are not kept. */
  method SkipXuTextures(r: ByteReader, rev: int) returns (res: Result<()>)
    modifies r
    ensures res.Success? ==> r.pos == old(r.pos) + 4 * XuTextureSize(rev)
    ensures res.Failure? ==> res.error.ReadPastEnd?
  {
    var u :- ReadXuTexture(r, rev);
    var d :- ReadXuTexture(r, rev);
    var f :- ReadXuTexture(r, rev);
    var rr :- ReadXuTexture(r, rev);
    res := Success(());
  }

  /** The sapwood block, skipped: its size follows the scanner. */
  function SapwoodSize(rev: int): nat
  {
    if rev >= 505 then 21124 else if rev >= 500 then 12676 else if rev > 88 then 6340 else 0
  }

  datatype BoardScans = BoardScans(pinWorm: seq<SlicePinWorm>, sawStep: seq<SawStep>, light: LightLevels, pith: seq<PithPoint>)

  function PinWormsSize(rev: int, np: int): int { if rev > 31 then Count(np) * 8 else 0 }

  function SawStepsSize(rev: int, np: int): int { if rev > 40 then Count(np) * 2 else 0 }

  /** The bytes between the light levels and the pith array: the texture skip and the XU texture blocks. */
  function TextureSize(rev: int, np: int): int
  {
    (if rev > 65 then np * 4 else 0) + (if rev > 73 then 4 * XuTextureSize(rev) else 0)
  }

  function PithArraySize(rev: int): int { if rev > 74 then NumOfSlices(rev) * PithPointSize(rev) else 0 }

  function PithArrayAt(w: Window, q: int, rev: int): seq<PithPoint>
  {
    if rev > 74 then RunAt(PithPointReader(w, rev), q, PithPointSize(rev), NumOfSlices(rev)) else []
  }

  /** The pinworm and saw-step runs of the geometry slices. */
  function SliceBytesAt(w: Window, q: int, rev: int, np: int): (seq<SlicePinWorm>, seq<SawStep>)
  {
    (if rev > 31 then RunAt(SlicePinWormReader(w), q, 8, Count(np)) else [],
     if rev > 40 then RunAt(SawStepReader(w), q + PinWormsSize(rev, np), 2, Count(np)) else [])
  }

  method ReadSliceBytes(r: ByteReader, rev: int, np: int) returns (res: Result<(seq<SlicePinWorm>, seq<SawStep>)>)
    modifies r
    ensures res.Success? ==> r.pos == old(r.pos) + PinWormsSize(rev, np) + SawStepsSize(rev, np) && res.value == SliceBytesAt(r.win, old(r.pos), rev, np)
    ensures res.Failure? ==> res.error.ReadPastEnd?
  {
    var pinWorm := [];
    if rev > 31 {
      pinWorm :- ReadPinWorms(r, np);
    }
    var sawStep := [];
    if rev > 40 {
      sawStep :- ReadSawSteps(r, np);
    }
    res := Success((pinWorm, sawStep));
  }

  /** The pith array after the texture blocks, and where the sapwood block ends. */
  method ReadPithPart(r: ByteReader, rev: int, np: int) returns (res: Result<seq<PithPoint>>)
    modifies r
    ensures res.Success? ==> r.pos == old(r.pos) + TextureSize(rev, np) + PithArraySize(rev) + SapwoodSize(rev)
    ensures res.Success? ==> res.value == PithArrayAt(r.win, old(r.pos) + TextureSize(rev, np), rev)
    ensures res.Failure? ==> res.error.ReadPastEnd?
  {
    if rev > 65 {
      r.IncOffset(np * 4);
    }
    if rev > 73 {
      var _ :- SkipXuTextures(r, rev);
    }
    var pith := [];
    if rev > 74 {
      pith :- ReadPithArray(r, rev, NumOfSlices(rev));
    }
    r.IncOffset(SapwoodSize(rev));
    res := Success(pith);
  }

  function BoardScansAt(w: Window, q: int, rev: int, np: int): BoardScans
  {
    var bytes := SliceBytesAt(w, q, rev, np);
    var l := q + PinWormsSize(rev, np) + SawStepsSize(rev, np);
    var t := l + LightLevelsSize(rev, np);
    BoardScans(bytes.0, bytes.1, LightLevelsAt(w, l, rev), PithArrayAt(w, t + TextureSize(rev, np), rev))
  }

  function BoardScansSize(rev: int, np: int): int
  {
    PinWormsSize(rev, np) + SawStepsSize(rev, np) + LightLevelsSize(rev, np) + TextureSize(rev, np) + PithArraySize(rev) + SapwoodSize(rev)
  }

  method ReadBoardScans(r: ByteReader, rev: int, np: int) returns (res: Result<BoardScans>)
    modifies r
    ensures res.Success? ==> r.pos == old(r.pos) + BoardScansSize(rev, np) && res.value == BoardScansAt(r.win, old(r.pos), rev, np)
    ensures res.Failure? ==> res.error.ReadPastEnd?
  {
    var bytes :- ReadSliceBytes(r, rev, np);
    var light :- ReadLightLevels(r, rev, np);
    var pith :- ReadPithPart(r, rev, np);
    res := Success(BoardScans(bytes.0, bytes.1, light, pith));
  }

  /** The light levels take the slice capacity's triples from revision 92 and follow the geometry before. */
  lemma LightLevelsLayout(w: Window, q: int, rev: int, np: int)
    ensures rev > 91 && rev < 522 ==> LightLevelsAt(w, q, rev).InterleavedLight? && |LightLevelsAt(w, q, rev).quads| == NumOfSlices(rev)
    ensures rev >= 522 ==> LightLevelsAt(w, q, rev).SeparateLight? && |LightLevelsAt(w, q, rev).dr| == 1320 && LightLevelsSize(rev, np) == 23760
    ensures 31 < rev <= 91 ==> LightLevelsAt(w, q, rev) == SkippedLightLevels && LightLevelsSize(rev, np) == 12 * np
  {
  }

  // ---------------------------------------------------------------------
  // Thickness heads and the board's begin and end points.
  // ---------------------------------------------------------------------

  /** The declared head counts, the first head list, and the second one (from revision 132). */
  datatype BoardThickness = BoardThickness(nThickH1: int, nThickH2: int, heads1: seq<ThicknHead>, heads2: Option<seq<ThicknHead>>)

  /** ReadThicknData's outcome when its head records fit: the heads, or the undefined head it touches. */
  function HeadsAt(w: Window, q: int, rev: int, n: int): Result<seq<ThicknHead>>
  {
    ThicknDataOf(ThicknHeadsAt(w, q, rev, Count(HeadCount(rev, n))), rev, n)
  }

  function HeadsSize(rev: int, n: int): int { Count(HeadCount(rev, n)) * ThicknHeadSize(rev) }

  method ReadHeads(r: ByteReader, rev: int, n: int) returns (res: Result<seq<ThicknHead>>)
    modifies r
    ensures res.Success? ==> res == HeadsAt(r.win, old(r.pos), rev, n) && r.pos == old(r.pos) + HeadsSize(rev, n)
    ensures res.Failure? ==> res.error.ReadPastEnd? || res == HeadsAt(r.win, old(r.pos), rev, n)
  {
    res := ReadThicknData(r, rev, n);
  }

  /** The thickness part, failing where a head list touches an undefined head. */
  function BoardThicknessAt(w: Window, q: int, rev: int): Result<BoardThickness>
  {
    var n1, n2 := w.I16At(q), w.I16At(q + 2);
    var h1 := HeadsAt(w, q + 4, rev, n1);
    if h1.Failure? then Failure(h1.error)
    else if rev >= 132 then
      var h2 := HeadsAt(w, q + 4 + HeadsSize(rev, n1), rev, n2);
      if h2.Failure? then Failure(h2.error) else Success(BoardThickness(n1, n2, h1.value, Some(h2.value)))
    else Success(BoardThickness(n1, n2, h1.value, None))
  }

  function BoardThicknessSize(rev: int, t: BoardThickness): int
  {
    4 + HeadsSize(rev, t.nThickH1) + (if rev >= 132 then HeadsSize(rev, t.nThickH2) else 0)
  }

  method ReadBoardThickness(r: ByteReader, rev: int) returns (res: Result<BoardThickness>)
    modifies r
    ensures res.Success? ==> res == BoardThicknessAt(r.win, old(r.pos), rev) && r.pos == old(r.pos) + BoardThicknessSize(rev, res.value)
    ensures res.Failure? ==> res.error.ReadPastEnd? || res == BoardThicknessAt(r.win, old(r.pos), rev)
  {
    var n1 :- r.ReadSmallInt();
    var n2 :- r.ReadSmallInt();
    var h1 :- ReadHeads(r, rev, n1);
    var h2 := None;
    if rev >= 132 {
      var hs :- ReadHeads(r, rev, n2);
      h2 := Some(hs);
    }
    res := Success(BoardThickness(n1, n2, h1, h2));
  }

  /** The points of one board end: side 1, then side 2, three points each. */
  datatype PointPair = PointPair(side1: seq<int>, side2: seq<int>)

  datatype BoardPoints = BoardPoints(beg: PointPair, end: PointPair)

  /** Three points per side from revision 37, two before. */
  function PointsPerSide(rev: int): nat { if rev > 36 then 3 else 2 }

  /** A side read with two points gets a third one of 0. */
  function Padded(s: seq<int>): (t: seq<int>)
    requires |s| == 2 || |s| == 3
    ensures |t| == 3 && t[..|s|] == s && (|s| == 2 ==> t[2] == 0)
  {
    if |s| < 3 then s + [0] else s
  }

  function PointPairAt(w: Window, q: int, rev: int): PointPair
  {
    var n := PointsPerSide(rev);
    PointPair(Padded(I16sAt(w, q, n)), Padded(I16sAt(w, q + 2 * n, n)))
  }

  method ReadPointPair(r: ByteReader, rev: int) returns (res: Result<PointPair>)
    modifies r
    ensures res.Success? ==> r.pos == old(r.pos) + 4 * PointsPerSide(rev) && res.value == PointPairAt(r.win, old(r.pos), rev)
    ensures res.Failure? ==> res.error.ReadPastEnd?
  {
    var n := PointsPerSide(rev);
    var a :- ReadSmallInts(r, n);
    var b :- ReadSmallInts(r, n);
    res := Success(PointPair(Padded(a), Padded(b)));
  }

  /** The begin points, then the end points, as stored. */
  function RawBoardPointsAt(w: Window, q: int, rev: int): BoardPoints
  {
    BoardPoints(PointPairAt(w, q, rev), PointPairAt(w, q + 4 * PointsPerSide(rev), rev))
  }

  predicate WellShaped(pp: PointPair) { |pp.side1| == 3 && |pp.side2| == 3 }

  /** A side whose first point is 0 while its second is positive lacks its first point. */
  predicate LacksFirst(side: seq<int>)
    requires |side| == 3
  {
    side[0] == 0 && side[1] > 0
  }

  /** Side 2 moved down one place: its second point becomes its first, and side 1's second point its second. */
  function ShiftSecondSide(pp: PointPair): PointPair
    requires WellShaped(pp)
  {
    PointPair(pp.side1, [pp.side2[1], pp.side1[1], pp.side2[2]])
  }

  /** The repair of the begin points: side 2 is shifted when it lacks its first point. */
  function RepairSecondSide(pp: PointPair): (fixed: PointPair)
    requires WellShaped(pp)
    ensures WellShaped(fixed)
  {
    if LacksFirst(pp.side2) then ShiftSecondSide(pp) else pp
  }

  /**
   * The repair of the end points as written: side 2 is shifted when side 1
   * lacks its first point.
   */
  function RepairEndPointsAsWritten(pp: PointPair): (fixed: PointPair)
    requires WellShaped(pp)
    ensures WellShaped(fixed)
  {
    if LacksFirst(pp.side1) then ShiftSecondSide(pp) else pp
  }

  /**
   * The points after their repair: the begin points by the rule that tests
   * side 2, the end points as the source writes it, testing side 1.
   */
  function RepairedPoints(bp: BoardPoints): (fixed: BoardPoints)
    requires WellShaped(bp.beg) && WellShaped(bp.end)
    ensures WellShaped(fixed.beg) && WellShaped(fixed.end)
  {
    BoardPoints(RepairSecondSide(bp.beg), RepairEndPointsAsWritten(bp.end))
  }

  /** The points as read and repaired. */
  method ReadBoardPoints(r: ByteReader, rev: int) returns (res: Result<BoardPoints>)
    modifies r
    ensures res.Success? ==> r.pos == old(r.pos) + 8 * PointsPerSide(rev) && res.value == RepairedPoints(RawBoardPointsAt(r.win, old(r.pos), rev))
    ensures res.Failure? ==> res.error.ReadPastEnd?
  {
    var beg :- ReadPointPair(r, rev);
    var end :- ReadPointPair(r, rev);
    res := Success(RepairedPoints(BoardPoints(beg, end)));
  }

  /** The repair leaves side 1 alone, gives side 2 a first point, changes nothing that needs no repair, and is idempotent. */
  lemma RepairSecondSideProperties(pp: PointPair)
    requires WellShaped(pp)
    ensures RepairSecondSide(pp).side1 == pp.side1
    ensures !LacksFirst(RepairSecondSide(pp).side2)
    ensures !LacksFirst(pp.side2) ==> RepairSecondSide(pp) == pp
    ensures LacksFirst(pp.side2) ==> RepairSecondSide(pp).side2 == [pp.side2[1], pp.side1[1], pp.side2[2]]
    ensures RepairSecondSide(RepairSecondSide(pp)) == RepairSecondSide(pp)
  {
  }

  /** As written, the end repair leaves side 1 alone and shifts side 2 exactly when side 1 lacks its first point. */
  lemma RepairEndPointsAsWrittenProperties(pp: PointPair)
    requires WellShaped(pp)
    ensures RepairEndPointsAsWritten(pp).side1 == pp.side1
    ensures !LacksFirst(pp.side1) ==> RepairEndPointsAsWritten(pp) == pp
    ensures LacksFirst(pp.side1) ==> RepairEndPointsAsWritten(pp).side2 == [pp.side2[1], pp.side1[1], pp.side2[2]]
  {
  }

  /** Two points per side before revision 37: the third point of every side is 0 both as read and after the repair. */
  lemma TwoPointSidesPadded(w: Window, q: int, rev: int)
    requires rev <= 36
    ensures var bp := RepairedPoints(RawBoardPointsAt(w, q, rev));
      bp.beg.side1[2] == 0 && bp.beg.side2[2] == 0 && bp.end.side1[2] == 0 && bp.end.side2[2] == 0
  {
  }

  /** As written, the end repair leaves a side 2 without its first point, and shifts a side 2 that had one. */
  lemma RepairEndPointsAsWrittenMisses()
    ensures var pp := PointPair([5, 7, 0], [0, 3, 0]);
      LacksFirst(RepairEndPointsAsWritten(pp).side2) && !LacksFirst(RepairSecondSide(pp).side2)
    ensures var pp := PointPair([0, 3, 0], [4, 6, 0]);
      RepairEndPointsAsWritten(pp).side2 == [6, 3, 0] && RepairSecondSide(pp) == pp
  {
  }

  // ---------------------------------------------------------------------
  // The main header, read through a sub-reader bounded to its length.
  // ---------------------------------------------------------------------

  /** Before revision 72 a moisture content below 101 is stored in whole percent and scaled to tenths. */
  function ScaledMoisture(h: MainHeader, rev: int): (fixed: MainHeader)
    ensures fixed.front == h.front && fixed.back.esid == h.back.esid && fixed.back.cams == h.back.cams
  {
    if rev < 72 && h.back.stock.moistContent < 101
    then h.(back := h.back.(stock := h.back.stock.(moistContent := 10 * h.back.stock.moistContent)))
    else h
  }

  /** The window of the header's sub-reader: `readLen` bytes from the board reader's position. */
  function HeaderWindow(w: Window, q: int, rev: int, mHdrSize: int): Window
  {
    Window(w.data, w.base + q, MainHeaderReadLen(rev, mHdrSize))
  }

  function BoardHeaderAt(w: Window, q: int, rev: int, mHdrSize: int): MainHeader
  {
    ScaledMoisture(MainHeaderAt(HeaderWindow(w, q, rev, mHdrSize), 0), rev)
  }

  /**
   * The header through its own reader; the board reader then moves on by
   * the header's length whatever the header reader consumed. Revision 105
   * swaps two camera identifiers through a name that is not declared.
   */
  method ReadBoardHeader(r: ByteReader, rev: int, mHdrSize: int) returns (res: Result<MainHeader>)
    modifies r
    ensures r.pos == old(r.pos) + MainHeaderReadLen(rev, mHdrSize)
    ensures res.Success? <==> rev != 105
    ensures res.Success? ==> res.value == BoardHeaderAt(r.win, old(r.pos), rev, mHdrSize)
    ensures res.Failure? ==> res.error == UndeclaredName
  {
    var readLen := MainHeaderReadLen(rev, mHdrSize);
    var offset := r.GetOffset();
    var r2 := new ByteReader(r.win.data, offset, readLen);
    var header := ReadMainHeader(r2);
    r.IncOffset(readLen);
    if rev == 105 {
      return Failure(UndeclaredName);
    }
    res := Success(ScaledMoisture(header, rev));
  }

  /** A header window of at most 317 bytes ends before the stock block: the back of the header keeps its defaults. */
  lemma ShortHeaderBack(w: Window)
    requires w.len < 318
    ensures MainHeaderAt(w, 0).back == DefaultBack
  {
    assert !w.Within(0, 318);
  }

  /** Before revision 41 the board's header is read from 312 bytes, so its back holds the defaults. */
  lemma EarlyBoardHeaderBack(w: Window, q: int, rev: int, mHdrSize: int)
    requires rev < 41
    ensures BoardHeaderAt(w, q, rev, mHdrSize).back == DefaultBack
  {
    MainHeaderReadLenCases(rev, mHdrSize);
    ShortHeaderBack(HeaderWindow(w, q, rev, mHdrSize));
  }

  /** The moisture scaling: tenfold below 101 before revision 72, unchanged otherwise. */
  lemma ScaledMoistureValue(h: MainHeader, rev: int)
    ensures var m := h.back.stock.moistContent;
      ScaledMoisture(h, rev).back.stock.moistContent == (if rev < 72 && m < 101 then 10 * m else m)
    ensures rev >= 72 ==> ScaledMoisture(h, rev) == h
  {
  }

  // ---------------------------------------------------------------------
  // Moisture readings per geometry slice.
  // ---------------------------------------------------------------------

  /** The MSR and MC values of each geometry slice and their averages (0 when absent). */
  datatype BoardMoisture = BoardMoisture(msrDatas: seq<int>, mcDatas: seq<int>, msrAve: Num, mcAve: Num)

  /** Before revision 61 every slice gets the MSR value 99999 and no MC value. */
  const NoMsr := 99999

  function MoistureAveragesAt(w: Window, e: int, rev: int): (Num, Num)
  {
    (if rev > 62 then F64(w.F64At(e)) else Int(0),
     if rev > 63 then F64(w.F64At(if rev > 62 then e + 8 else e)) else Int(0))
  }

  function MoistureAveragesSize(rev: int): nat { (if rev > 62 then 8 else 0) + (if rev > 63 then 8 else 0) }

  function BoardMoistureAt(w: Window, q: int, rev: int, np: int): BoardMoisture
  {
    if rev > 60 then
      var n := Count(np);
      var aves := MoistureAveragesAt(w, q + 8 * n, rev);
      BoardMoisture(I32sAt(w, q, n), I32sAt(w, q + 4 * n, n), aves.0, aves.1)
    else BoardMoisture(seq(Count(np), _ => NoMsr), [], Int(0), Int(0))
  }

  function BoardMoistureSize(rev: int, np: int): int
  {
    if rev > 60 then 8 * Count(np) + MoistureAveragesSize(rev) else 0
  }

  method ReadMoistureAverages(r: ByteReader, rev: int) returns (res: Result<(Num, Num)>)
    modifies r
    ensures res.Success? ==> r.pos == old(r.pos) + MoistureAveragesSize(rev) && res.value == MoistureAveragesAt(r.win, old(r.pos), rev)
    ensures res.Failure? ==> res.error.ReadPastEnd?
  {
    var msrAve := Int(0);
    var mcAve := Int(0);
    if rev > 62 {
      var d :- r.ReadDouble();
      msrAve := F64(d);
    }
    if rev > 63 {
      var d :- r.ReadDouble();
      mcAve := F64(d);
    }
    res := Success((msrAve, mcAve));
  }

  method ReadBoardMoisture(r: ByteReader, rev: int, np: int) returns (res: Result<BoardMoisture>)
    modifies r
    ensures res.Success? ==> r.pos == old(r.pos) + BoardMoistureSize(rev, np) && res.value == BoardMoistureAt(r.win, old(r.pos), rev, np)
    ensures res.Failure? ==> res.error.ReadPastEnd?
  {
    if rev > 60 {
      var msr :- ReadIntegers(r, np);
      var mc :- ReadIntegers(r, np);
      var aves :- ReadMoistureAverages(r, rev);
      res := Success(BoardMoisture(msr, mc, aves.0, aves.1));
    } else {
      var msr: seq<int> := [];
      var i := 0;
      while i < Count(np)
        invariant 0 <= i <= Count(np)
        invariant msr == seq(i, _ => NoMsr)
      {
        msr := msr + [NoMsr];
        i := i + 1;
      }
      res := Success(BoardMoisture(msr, [], Int(0), Int(0)));
    }
  }

  /** One MSR and, from revision 61, one MC value per geometry slice. */
  lemma BoardMoistureShape(w: Window, q: int, rev: int, np: int, i: nat)
    requires i < Count(np)
    ensures |BoardMoistureAt(w, q, rev, np).msrDatas| == Count(np)
    ensures rev > 60 ==> |BoardMoistureAt(w, q, rev, np).mcDatas| == Count(np)
    ensures rev <= 60 ==> BoardMoistureAt(w, q, rev, np).msrDatas[i] == NoMsr && BoardMoistureAt(w, q, rev, np).mcDatas == []
    ensures rev > 60 ==> BoardMoistureAt(w, q, rev, np).msrDatas[i] == w.I32At(q + 4 * i)
    ensures rev > 60 ==> BoardMoistureAt(w, q, rev, np).mcDatas[i] == w.I32At(q + 4 * Count(np) + 4 * i)
  {
    if rev > 60 {
      I32sAtIndex(w, q, Count(np), i);
      I32sAtIndex(w, q + 4 * Count(np), Count(np), i);
    }
  }

  // ---------------------------------------------------------------------
  // EndSpy: up to two end results, the image information, and the
  // version fixes of the results.
  // ---------------------------------------------------------------------

  /** From revision 128 (514) the results follow a record size, and a zero size means none. */
  predicate HasEsRecSize(rev: int) { Gate(rev, 127, 513) }

  /** From revision 129 (515) an image block follows the results. */
  predicate HasEsImage(rev: int) { Gate(rev, 128, 514) }

  /** The one-eighth image: 135 rows of 240 colour triples; its pixels are not kept. */
  const EsImageBytes := 135 * 240 * 3

  datatype EsImageInfo = EsImageInfo(boardID: int, pithX: int, pithY: int)

  datatype BoardEndSpy = BoardEndSpy(results: seq<EndSpyResult>, image: Option<EsImageInfo>)

  function EndSpyAt(w: Window, q: int, rev: int): EndSpyResult
  {
    EndSpyResult(EsFrontAt(w, q, rev), EsBackAt(w, q + EsFrontSize(rev), rev))
  }

  /** Where a result read at `q` ends: its size depends on the split count it declares. */
  function EndSpyEnd(w: Window, q: int, rev: int): int
  {
    q + EsFrontSize(rev) + EsBackSize(rev, EndSpyAt(w, q, rev).back.split.count)
  }

  method ReadEndSpy(r: ByteReader, rev: int) returns (res: Result<EndSpyResult>)
    modifies r
    ensures res.Success? ==> r.pos == EndSpyEnd(r.win, old(r.pos), rev) && res.value == EndSpyAt(r.win, old(r.pos), rev)
    ensures res.Failure? ==> res.error.ReadPastEnd?
  {
    res := ReadEndSpyResult(r, rev);
  }

  /** `k` (at most two) results one after the other. */
  function EndSpyRunAt(w: Window, q: int, rev: int, k: nat): (s: seq<EndSpyResult>)
    requires k <= 2
    ensures |s| == k
  {
    if k == 0 then [] else if k == 1 then [EndSpyAt(w, q, rev)] else [EndSpyAt(w, q, rev), EndSpyAt(w, EndSpyEnd(w, q, rev), rev)]
  }

  function EndSpyRunEnd(w: Window, q: int, rev: int, k: nat): int
  {
    if k == 0 then q else if k == 1 then EndSpyEnd(w, q, rev) else EndSpyEnd(w, EndSpyEnd(w, q, rev), rev)
  }

  method ReadEndSpyRun(r: ByteReader, rev: int, k: nat) returns (res: Result<seq<EndSpyResult>>)
    requires k <= 2
    modifies r
    ensures res.Success? ==> r.pos == EndSpyRunEnd(r.win, old(r.pos), rev, k) && res.value == EndSpyRunAt(r.win, old(r.pos), rev, k)
    ensures res.Failure? ==> res.error.ReadPastEnd?
  {
    if k == 0 {
      return Success([]);
    }
    var a :- ReadEndSpy(r, rev);
    if k == 1 {
      return Success([a]);
    }
    var b :- ReadEndSpy(r, rev);
    res := Success([a, b]);
  }

  function EsImageAt(w: Window, e: int, rev: int): Option<EsImageInfo>
  {
    if HasEsImage(rev) && w.I32At(e) > 0 then Some(EsImageInfo(w.I32At(e + 4), w.I32At(e + 8), w.I32At(e + 12))) else None
  }

  function EsImageEnd(w: Window, e: int, rev: int): int
  {
    if HasEsImage(rev) then e + 4 + (if w.I32At(e) > 0 then 16 + EsImageBytes else 0) else e
  }

  method ReadEsImageInfo(r: ByteReader) returns (res: Result<EsImageInfo>)
    modifies r
    ensures res.Success? ==> r.pos == old(r.pos) + 16 + EsImageBytes
    ensures res.Success? ==> res.value == EsImageInfo(r.win.I32At(old(r.pos)), r.win.I32At(old(r.pos) + 4), r.win.I32At(old(r.pos) + 8))
    ensures res.Failure? ==> res.error.ReadPastEnd?
  {
    var boardID :- r.ReadInteger();
    var pithX :- r.ReadInteger();
    var pithY :- r.ReadInteger();
    var iid :- r.ReadInteger();
    var pixels :- r.ReadBytes(EsImageBytes);
    res := Success(EsImageInfo(boardID, pithX, pithY));
  }

  method ReadEsImage(r: ByteReader, rev: int) returns (res: Result<Option<EsImageInfo>>)
    modifies r
    ensures res.Success? ==> r.pos == EsImageEnd(r.win, old(r.pos), rev) && res.value == EsImageAt(r.win, old(r.pos), rev)
    ensures res.Failure? ==> res.error.ReadPastEnd?
  {
    if !HasEsImage(rev) {
      return Success(None);
    }
    var size :- r.ReadInteger();
    if size > 0 {
      var info :- ReadEsImageInfo(r);
      res := Success(Some(info));
    } else {
      res := Success(None);
    }
  }

  /** How many results the part holds: two or none after a record size, otherwise one, or two from revision 115. */
  function EndSpyCount(w: Window, q: int, rev: int): (k: nat)
    ensures k <= 2
  {
    if HasEsRecSize(rev) then (if w.I32At(q) > 0 then 2 else 0)
    else if rev > 90 then (if rev > 114 then 2 else 1)
    else 0
  }

  function BoardEndSpyAt(w: Window, q: int, rev: int): BoardEndSpy
  {
    var s := if HasEsRecSize(rev) then q + 4 else q;
    var k := EndSpyCount(w, q, rev);
    BoardEndSpy(EndSpyRunAt(w, s, rev, k), if HasEsRecSize(rev) then EsImageAt(w, EndSpyRunEnd(w, s, rev, k), rev) else None)
  }

  /** Where the part ends; revision 90 skips 48 bytes it does not decode. */
  function BoardEndSpyEnd(w: Window, q: int, rev: int): int
  {
    var s := if HasEsRecSize(rev) then q + 4 else q;
    var e := EndSpyRunEnd(w, s, rev, EndSpyCount(w, q, rev));
    if HasEsRecSize(rev) then EsImageEnd(w, e, rev) else if 89 < rev <= 90 then q + 48 else e
  }

  /** The part from revisions 127 and 513 on: a record size, two results when it is positive, then the image. */
  method ReadSizedEndSpy(r: ByteReader, rev: int) returns (res: Result<BoardEndSpy>)
    requires HasEsRecSize(rev)
    modifies r
    ensures res.Success? ==> r.pos == BoardEndSpyEnd(r.win, old(r.pos), rev) && res.value == BoardEndSpyAt(r.win, old(r.pos), rev)
    ensures res.Failure? ==> res.error.ReadPastEnd?
  {
    var recSize :- r.ReadInteger();
    var results :- ReadEndSpyRun(r, rev, if recSize > 0 then 2 else 0);
    var image :- ReadEsImage(r, rev);
    res := Success(BoardEndSpy(results, image));
  }

  method ReadBoardEndSpy(r: ByteReader, rev: int) returns (res: Result<BoardEndSpy>)
    modifies r
    ensures res.Success? ==> r.pos == BoardEndSpyEnd(r.win, old(r.pos), rev) && res.value == BoardEndSpyAt(r.win, old(r.pos), rev)
    ensures res.Failure? ==> res.error.ReadPastEnd?
  {
    if HasEsRecSize(rev) {
      res := ReadSizedEndSpy(r, rev);
    } else if rev > 90 {
      // `(RevNr >= 500) || ((RevNr < 500) && (RevNr > 114))` is `RevNr > 114`.
      var results :- ReadEndSpyRun(r, rev, if rev > 114 then 2 else 1);
      res := Success(BoardEndSpy(results, None));
    } else if rev > 89 {
      r.IncOffset(48);
      res := Success(BoardEndSpy([], None));
    } else {
      res := Success(BoardEndSpy([], None));
    }
  }

  /** The blue stain and rot percentages were not measured before revision 112. */
  predicate LacksStainPercents(rev: int) { rev < 112 }

  /** The dark blue stain percentage was not measured before revision 122, nor in 500 to 507. */
  predicate LacksDarkBlueStain(rev: int) { (500 <= rev < 508) || rev < 122 }

  /** The revisions whose splits are to be marked as heart shakes: 500 to 502 and 115 to 117. */
  predicate MarksHeartShakes(rev: int) { (500 <= rev < 503) || (114 < rev < 118) }

  /** A percentage set to not-in-use. */
  const NotInUse := -1

  /**
   * A result after the stain fixes: blue stain and rot are not in use
   * before revision 112, dark blue stain where the revision lacks it, and
   * all three when the average gap is zero (no end was measured).
   */
  function FixedEndSpy(es: EndSpyResult, rev: int): EndSpyResult
  {
    var noGap := es.front.ident.gaps.averageGap.IsZero();
    var v108 := es.front.stain.v108;
    var v122 := es.back.shape.v122;
    var stain := v108.(bluestainPercent := if LacksStainPercents(rev) || noGap then NotInUse else v108.bluestainPercent,
                       rotPercent := if LacksStainPercents(rev) || noGap then NotInUse else v108.rotPercent);
    var dark := if LacksDarkBlueStain(rev) || noGap then NotInUse else v122.darkBlueStainPercent;
    es.(front := es.front.(stain := es.front.stain.(v108 := stain)),
        back := es.back.(shape := es.back.shape.(v122 := v122.(darkBlueStainPercent := dark))))
  }

  /**
   * Whether the heart-shake loop runs its body for a result: it does when
   * the revision marks heart shakes, the average gap is positive and the
   * result counts a split. The body stores through a property the result
   * does not have, so the decode stops there.
   */
  predicate MarksSplits(es: EndSpyResult, rev: int)
  {
    MarksHeartShakes(rev) && es.front.ident.gaps.averageGap.IsPositive() && es.back.split.count >= 1
  }

  function FixedEndSpyResults(results: seq<EndSpyResult>, rev: int): Result<seq<EndSpyResult>>
  {
    if exists i :: 0 <= i < |results| && MarksSplits(results[i], rev) then Failure(UndefinedAccess)
    else Success(seq(|results|, i requires 0 <= i < |results| => FixedEndSpy(results[i], rev)))
  }

  /** The fix loops over the results; the heart-shake loop stops the decode at the first result it marks. */
  method FixEndSpyResults(results: seq<EndSpyResult>, rev: int) returns (res: Result<seq<EndSpyResult>>)
    ensures res == FixedEndSpyResults(results, rev)
  {
    var acc: seq<EndSpyResult> := [];
    var i := 0;
    while i < |results|
      invariant 0 <= i <= |results|
      invariant |acc| == i
      invariant forall j :: 0 <= j < i ==> acc[j] == FixedEndSpy(results[j], rev) && !MarksSplits(results[j], rev)
    {
      if MarksSplits(results[i], rev) {
        assert 0 <= i < |results| && MarksSplits(results[i], rev);
        return Failure(UndefinedAccess);
      }
      acc := acc + [FixedEndSpy(results[i], rev)];
      i := i + 1;
    }
    assert acc == seq(|results|, j requires 0 <= j < |results| => FixedEndSpy(results[j], rev));
    res := Success(acc);
  }

  /** The fixes touch the three percentages only; each becomes not in use or stays as read. */
  lemma FixedEndSpyKeeps(es: EndSpyResult, rev: int)
    ensures var f := FixedEndSpy(es, rev);
      f.front.ident == es.front.ident && f.front.stain.v93 == es.front.stain.v93
      && f.front.stain.v108.(bluestainPercent := 0, rotPercent := 0) == es.front.stain.v108.(bluestainPercent := 0, rotPercent := 0)
      && f.back.split == es.back.split && f.back.ec == es.back.ec && f.back.shape.v128 == es.back.shape.v128
      && f.back.shape.v122.treeSpecies == es.back.shape.v122.treeSpecies
      && (f.front.stain.v108.bluestainPercent == NotInUse || f.front.stain.v108.bluestainPercent == es.front.stain.v108.bluestainPercent)
      && (f.back.shape.v122.darkBlueStainPercent == NotInUse || f.back.shape.v122.darkBlueStainPercent == es.back.shape.v122.darkBlueStainPercent)
  {
  }

  /** When each percentage is not in use, and that a measured end of a later revision keeps them. */
  lemma FixedEndSpyPercents(es: EndSpyResult, rev: int)
    ensures var f := FixedEndSpy(es, rev);
      var noGap := es.front.ident.gaps.averageGap.IsZero();
      (f.front.stain.v108.bluestainPercent == NotInUse <==> LacksStainPercents(rev) || noGap || es.front.stain.v108.bluestainPercent == NotInUse)
      && (f.front.stain.v108.rotPercent == NotInUse <==> LacksStainPercents(rev) || noGap || es.front.stain.v108.rotPercent == NotInUse)
      && (f.back.shape.v122.darkBlueStainPercent == NotInUse <==>
            LacksDarkBlueStain(rev) || noGap || es.back.shape.v122.darkBlueStainPercent == NotInUse)
  {
  }

  lemma FixedEndSpyIdempotent(es: EndSpyResult, rev: int)
    ensures FixedEndSpy(FixedEndSpy(es, rev), rev) == FixedEndSpy(es, rev)
  {
  }

  /** The fixes fail exactly when some result has its splits marked, and otherwise fix each result in place. */
  lemma FixedEndSpyResultsCases(results: seq<EndSpyResult>, rev: int, i: nat)
    requires i < |results|
    ensures FixedEndSpyResults(results, rev).Failure? <==> exists j :: 0 <= j < |results| && MarksSplits(results[j], rev)
    ensures MarksSplits(results[i], rev) ==> FixedEndSpyResults(results, rev) == Failure(UndefinedAccess)
    ensures FixedEndSpyResults(results, rev).Success? ==>
      |FixedEndSpyResults(results, rev).value| == |results| && FixedEndSpyResults(results, rev).value[i] == FixedEndSpy(results[i], rev)
    ensures !MarksHeartShakes(rev) ==> FixedEndSpyResults(results, rev).Success?
  {
  }

  // ---------------------------------------------------------------------
  // MoistSpy: the record, after a record size from revision 128 (514),
  // without one from 104; then its version fixes.
  // ---------------------------------------------------------------------

  predicate HasMsRecSize(rev: int) { Gate(rev, 127, 513) }

  function BoardMoistSpyAt(w: Window, q: int, rev: int): Option<MoistSpyResult>
  {
    if HasMsRecSize(rev) then (if w.I32At(q) > 0 then Some(MoistSpyAt(w, q + 4, rev)) else None)
    else if rev > 103 then Some(MoistSpyAt(w, q, rev))
    else None
  }

  function BoardMoistSpySize(rev: int, ms: Option<MoistSpyResult>): int
  {
    (if HasMsRecSize(rev) then 4 else 0) + (if ms.Some? then MoistSpySize(rev, ms.value.count) else 0)
  }

  /** A decoded MoistSpy record always has a sensor record and a moisture per counted sensor. */
  lemma MoistSpyAtShaped(w: Window, q: int, rev: int)
    ensures Shaped(MoistSpyAt(w, q, rev))
  {
  }

  /** The record as decoded and corrected; without a record the board keeps a sensor count of 0. */
  function FixedBoardMoistSpy(ms: Option<MoistSpyResult>, rev: int): Option<MoistSpyResult>
    requires ms.Some? ==> Shaped(ms.value)
  {
    if ms.Some? then Some(MoistSpyFixed(ms.value, rev)) else None
  }

  method ReadBoardMoistSpy(r: ByteReader, rev: int) returns (res: Result<Option<MoistSpyResult>>)
    modifies r
    ensures res.Success? ==> r.pos == old(r.pos) + BoardMoistSpySize(rev, res.value) && res.value == BoardMoistSpyAt(r.win, old(r.pos), rev)
    ensures res.Success? && res.value.Some? ==> Shaped(res.value.value)
    ensures res.Failure? ==> res.error.ReadPastEnd?
  {
    res := Success(None);
    if HasMsRecSize(rev) {
      var size :- r.ReadInteger();
      if size > 0 {
        var ms :- ReadMoistSpyResult(r, rev);
        res := Success(Some(ms));
      }
    } else if rev > 103 {
      var ms :- ReadMoistSpyResult(r, rev);
      res := Success(Some(ms));
    }
  }
}
