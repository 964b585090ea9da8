/**
 * One optimised solution of a board record (ReadOneOptSolution): the
 * solution's values, the remanufacturing information (readRInfo) or the
 * shop information (readShopInfo), the cut positions, the cut reasons, the
 * option flags, the grading block and the quality-interval limits.
 *
 * The decoder builds one flat object; the model groups its fields by the
 * blocks they are stored in, because each block's size depends on the
 * revision or on a count read in it.
 */
module Solution {
  import opened Wrappers
  import opened Bytes
  import opened Reader
  import opened BresDefs
  import opened Revision
  import opened Arrays
  import opened Intervals

  // ---------------------------------------------------------------------
  // readRInfo.
  // ---------------------------------------------------------------------

  /** Revisions that store the ratio as a double and each interval with its own component. */
  predicate NewRInfo(rev: int) { Gate(rev, 136, 525) }

  /** Bytes of the ratio: a double in the current layout, an integer before. */
  function RatioSize(rev: int): nat { if NewRInfo(rev) then 8 else 4 }

  /** Bytes of the fixed part: four integers, the ratio and three integers. */
  function RInfoHeadSize(rev: int): nat { 28 + RatioSize(rev) }

  datatype RInfoHead = RInfoHead(x1: int, x2: int, xLim1: int, xLim2: int, rRatio: Num, totLen: int, totNr: int, cutOut: int)

  function RInfoHeadAt(w: Window, p: int, rev: int): RInfoHead
  {
    var q := p + 16 + RatioSize(rev);
    RInfoHead(w.I32At(p), w.I32At(p + 4), w.I32At(p + 8), w.I32At(p + 12),
      if NewRInfo(rev) then F64(w.F64At(p + 16)) else Int(w.I32At(p + 16)),
      w.I32At(q), w.I32At(q + 4), w.I32At(q + 8))
  }

  method ReadRInfoHead(r: ByteReader, rev: int) returns (res: Result<RInfoHead>)
    modifies r
    ensures res.Success? ==> r.win.Within(old(r.pos), RInfoHeadSize(rev))
    ensures res.Success? ==> r.pos == old(r.pos) + RInfoHeadSize(rev) && res.value == RInfoHeadAt(r.win, old(r.pos), rev)
    ensures res.Failure? ==> !r.win.Within(old(r.pos), RInfoHeadSize(rev)) && res.error.ReadPastEnd?
  {
    var x1 :- r.ReadInteger();
    var x2 :- r.ReadInteger();
    var xLim1 :- r.ReadInteger();
    var xLim2 :- r.ReadInteger();
    var rRatio: Num;
    if NewRInfo(rev) {
      var d :- r.ReadDouble();
      rRatio := F64(d);
    } else {
      var i :- r.ReadInteger();
      rRatio := Int(i);
    }
    var totLen :- r.ReadInteger();
    var totNr :- r.ReadInteger();
    var cutOut :- r.ReadInteger();
    res := Success(RInfoHead(x1, x2, xLim1, xLim2, rRatio, totLen, totNr, cutOut));
  }

  /**
   * One remanufacturing interval. The component index, name and code are
   * absent (`undefined`) in the files before revision 57.
   */
  datatype RInterv = RInterv(x1: int, x2: int, cind: Option<int>, compName: Option<seq<uint8>>, compCode: Option<int>)

  /** An interval of the current layout: two integers, the component index, a string[25] and the code. */
  function NewRIntervAt(w: Window, q: int): RInterv
  {
    RInterv(w.I32At(q), w.I32At(q + 4), Some(w.I16At(q + 8)), Some(w.Slice(q + 10, 26)), Some(w.I32At(q + 36)))
  }

  /** The decoder of one record, for runs of them. */
  function NewRIntervReader(w: Window): int -> RInterv { q => NewRIntervAt(w, q) }

  function NewRIntervsAt(w: Window, p: int, n: nat): (s: seq<RInterv>)
    ensures |s| == n
  {
    RunAt(NewRIntervReader(w), p, 40, n)
  }

  method ReadNewRInterv(r: ByteReader) returns (res: Result<RInterv>)
    modifies r
    ensures res.Success? ==> r.win.Within(old(r.pos), 40)
    ensures res.Success? ==> r.pos == old(r.pos) + 40 && res.value == NewRIntervAt(r.win, old(r.pos))
    ensures res.Failure? ==> !r.win.Within(old(r.pos), 40) && res.error.ReadPastEnd?
  {
    var x1 :- r.ReadInteger();
    var x2 :- r.ReadInteger();
    var cind :- r.ReadSmallInt();
    var compName :- r.ReadShortString(25);
    var compCode :- r.ReadInteger();
    res := Success(RInterv(x1, x2, Some(cind), Some(compName), Some(compCode)));
  }

  method ReadNewRIntervs(r: ByteReader, n: int) returns (res: Result<seq<RInterv>>)
    modifies r
    ensures res.Success? ==> Count(n) == 0 || r.win.Within(old(r.pos), Count(n) * 40)
    ensures res.Success? ==> r.pos == old(r.pos) + Count(n) * 40 && res.value == NewRIntervsAt(r.win, old(r.pos), Count(n))
    ensures res.Failure? ==> Count(n) > 0 && !r.win.Within(old(r.pos), Count(n) * 40) && res.error.ReadPastEnd?
  {
    ghost var p0 := r.pos;
    var acc: seq<RInterv> := [];
    var i := 0;
    while i < Count(n)
      invariant 0 <= i <= Count(n)
      invariant r.pos == p0 + i * 40
      invariant i > 0 ==> r.win.Within(p0, i * 40)
      invariant acc == NewRIntervsAt(r.win, p0, i)
    {
      StrideStep(40, 40, i, Count(n));
      ghost var q := r.pos;
      var x :- ReadNewRInterv(r);
      RunAtStep(NewRIntervReader(r.win), p0, 40, i, q, x);
      acc := acc + [x];
      i := i + 1;
    }
    res := Success(acc);
  }

  /** The two components of the layout before the current one: names (string[30]) and codes. */
  datatype OldComps = OldComps(comp1Name: seq<uint8>, comp2Name: seq<uint8>, compCode1: int, compCode2: int)

  function OldCompsAt(w: Window, p: int): OldComps
  {
    OldComps(w.Slice(p, 31), w.Slice(p + 31, 31), w.I32At(p + 64), w.I32At(p + 68))
  }

  method ReadOldComps(r: ByteReader) returns (res: Result<OldComps>)
    modifies r
    ensures res.Success? ==> r.win.Within(old(r.pos), 72)
    ensures res.Success? ==> r.pos == old(r.pos) + 72 && res.value == OldCompsAt(r.win, old(r.pos))
    ensures res.Failure? ==> !r.win.Within(old(r.pos), 72) && res.error.ReadPastEnd?
  {
    var comp1Name :- r.ReadShortString(30);
    var comp2Name :- r.ReadShortString(30);
    r.IncOffset(2);
    var compCode1 :- r.ReadInteger();
    var compCode2 :- r.ReadInteger();
    res := Success(OldComps(comp1Name, comp2Name, compCode1, compCode2));
  }

  /** An older interval: two integers and the component index; index 2 selects the second component, any other the first. */
  function OldRIntervAt(w: Window, q: int, comps: OldComps): RInterv
  {
    var cind := w.I16At(q + 8);
    RInterv(w.I32At(q), w.I32At(q + 4), Some(cind),
      Some(if cind == 2 then comps.comp2Name else comps.comp1Name),
      Some(if cind == 2 then comps.compCode2 else comps.compCode1))
  }

  /** The decoder of one record, for runs of them. */
  function OldRIntervReader(w: Window, comps: OldComps): int -> RInterv { q => OldRIntervAt(w, q, comps) }

  function OldRIntervsAt(w: Window, p: int, n: nat, comps: OldComps): (s: seq<RInterv>)
    ensures |s| == n
  {
    RunAt(OldRIntervReader(w, comps), p, 12, n)
  }

  /** Ten bytes read and two alignment bytes skipped. */
  method ReadOldRInterv(r: ByteReader, comps: OldComps) returns (res: Result<RInterv>)
    modifies r
    ensures res.Success? ==> r.win.Within(old(r.pos), 10)
    ensures res.Success? ==> r.pos == old(r.pos) + 12 && res.value == OldRIntervAt(r.win, old(r.pos), comps)
    ensures res.Failure? ==> !r.win.Within(old(r.pos), 10) && res.error.ReadPastEnd?
  {
    var x1 :- r.ReadInteger();
    var x2 :- r.ReadInteger();
    var cind :- r.ReadSmallInt();
    r.IncOffset(2);
    if cind == 2 {
      res := Success(RInterv(x1, x2, Some(cind), Some(comps.comp2Name), Some(comps.compCode2)));
    } else {
      res := Success(RInterv(x1, x2, Some(cind), Some(comps.comp1Name), Some(comps.compCode1)));
    }
  }

  method ReadOldRIntervs(r: ByteReader, n: int, comps: OldComps) returns (res: Result<seq<RInterv>>)
    modifies r
    ensures res.Success? ==> Count(n) == 0 || r.win.Within(old(r.pos), (Count(n) - 1) * 12 + 10)
    ensures res.Success? ==> r.pos == old(r.pos) + Count(n) * 12 && res.value == OldRIntervsAt(r.win, old(r.pos), Count(n), comps)
    ensures res.Failure? ==> Count(n) > 0 && !r.win.Within(old(r.pos), (Count(n) - 1) * 12 + 10) && res.error.ReadPastEnd?
  {
    ghost var p0 := r.pos;
    var acc: seq<RInterv> := [];
    var i := 0;
    while i < Count(n)
      invariant 0 <= i <= Count(n)
      invariant r.pos == p0 + i * 12
      invariant i > 0 ==> r.win.Within(p0, (i - 1) * 12 + 10)
      invariant acc == OldRIntervsAt(r.win, p0, i, comps)
    {
      StrideStep(12, 10, i, Count(n));
      ghost var q := r.pos;
      var x :- ReadOldRInterv(r, comps);
      RunAtStep(OldRIntervReader(r.win, comps), p0, 12, i, q, x);
      acc := acc + [x];
      i := i + 1;
    }
    res := Success(acc);
  }

  /** An interval of the files before revision 57: two integers, no component. */
  function PlainRIntervAt(w: Window, q: int): RInterv
  {
    RInterv(w.I32At(q), w.I32At(q + 4), None, None, None)
  }

  /** The decoder of one record, for runs of them. */
  function PlainRIntervReader(w: Window): int -> RInterv { q => PlainRIntervAt(w, q) }

  function PlainRIntervsAt(w: Window, p: int, n: nat): (s: seq<RInterv>)
    ensures |s| == n
  {
    RunAt(PlainRIntervReader(w), p, 8, n)
  }

  /**
   * The intervals of the files before revision 57. The decoder assigns each
   * the `iRemanComp` of the object it is building, which has none, so the
   * component index is `undefined`.
   */
  method ReadPlainRIntervs(r: ByteReader, n: int) returns (res: Result<seq<RInterv>>)
    modifies r
    ensures res.Success? ==> Count(n) == 0 || r.win.Within(old(r.pos), Count(n) * 8)
    ensures res.Success? ==> r.pos == old(r.pos) + Count(n) * 8 && res.value == PlainRIntervsAt(r.win, old(r.pos), Count(n))
    ensures res.Failure? ==> Count(n) > 0 && !r.win.Within(old(r.pos), Count(n) * 8) && res.error.ReadPastEnd?
  {
    ghost var p0 := r.pos;
    var acc: seq<RInterv> := [];
    var i := 0;
    while i < Count(n)
      invariant 0 <= i <= Count(n)
      invariant r.pos == p0 + i * 8
      invariant i > 0 ==> r.win.Within(p0, i * 8)
      invariant acc == PlainRIntervsAt(r.win, p0, i)
    {
      StrideStep(8, 8, i, Count(n));
      ghost var q := r.pos;
      var x1 :- r.ReadInteger();
      var x2 :- r.ReadInteger();
      var x := RInterv(x1, x2, None, None, None);
      RunAtStep(PlainRIntervReader(r.win), p0, 8, i, q, x);
      acc := acc + [x];
      i := i + 1;
    }
    res := Success(acc);
  }

  datatype RInfo = RInfo(head: RInfoHead, nrDiffComps: int, rIntervs: seq<RInterv>)

  /**
   * The remanufacturing information at `p`. From revision 57 the count of
   * components follows the fixed part, and room for 100 intervals is kept
   * whatever the count (the unused slots are skipped); before, only the
   * intervals read are stored and there is one component.
   */
  function RInfoAt(w: Window, p: int, rev: int): RInfo
  {
    var head := RInfoHeadAt(w, p, rev);
    var q := p + RInfoHeadSize(rev);
    var n := Count(head.totNr);
    if rev > 56 then
      if NewRInfo(rev) then RInfo(head, w.I32At(q), NewRIntervsAt(w, q + 4, n))
      else RInfo(head, w.I32At(q), OldRIntervsAt(w, q + 76, n, OldCompsAt(w, q + 4)))
    else RInfo(head, 1, PlainRIntervsAt(w, q, n))
  }

  /** Bytes of the remanufacturing information with `totNr` intervals. */
  function RInfoSize(rev: int, totNr: int): int
  {
    RInfoHeadSize(rev) +
      if rev > 56 then
        if NewRInfo(rev) then 4 + Count(totNr) * 40 + (100 - totNr) * 40
        else 76 + Count(totNr) * 12 + (100 - totNr) * 12
      else Count(totNr) * 8
  }

  /** `readRInfo`. */
  method ReadRInfo(r: ByteReader, rev: int) returns (res: Result<RInfo>)
    modifies r
    ensures res.Success? ==> res.value == RInfoAt(r.win, old(r.pos), rev)
    ensures res.Success? ==> r.pos == old(r.pos) + RInfoSize(rev, res.value.head.totNr)
    ensures res.Failure? ==> res.error.ReadPastEnd?
  {
    var head :- ReadRInfoHead(r, rev);
    if rev > 56 {
      var nrDiffComps :- r.ReadInteger();
      if NewRInfo(rev) {
        var rIntervs :- ReadNewRIntervs(r, head.totNr);
        r.IncOffset((100 - head.totNr) * 40);
        res := Success(RInfo(head, nrDiffComps, rIntervs));
      } else {
        var comps :- ReadOldComps(r);
        var rIntervs :- ReadOldRIntervs(r, head.totNr, comps);
        r.IncOffset((100 - head.totNr) * 12);
        res := Success(RInfo(head, nrDiffComps, rIntervs));
      }
    } else {
      var rIntervs :- ReadPlainRIntervs(r, head.totNr);
      res := Success(RInfo(head, 1, rIntervs));
    }
  }

  /** With a count of 0 to 100 the block has a fixed size in each layout. */
  lemma RInfoSizes(rev: int, totNr: int)
    requires 0 <= totNr <= 100
    ensures NewRInfo(rev) ==> RInfoSize(rev, totNr) == 4040
    ensures rev > 56 && !NewRInfo(rev) ==> RInfoSize(rev, totNr) == 1308
    ensures rev <= 56 ==> RInfoSize(rev, totNr) == 32 + 8 * totNr
  {
  }

  /** The current layout only occurs from revision 137, so it always stores the component count. */
  lemma NewRInfoStoresComponents(rev: int)
    ensures NewRInfo(rev) ==> rev > 56
  {
  }

  /** In the older layout each interval takes the second component exactly when its index is 2. */
  lemma OldIntervalComponent(w: Window, q: int, comps: OldComps)
    ensures var x := OldRIntervAt(w, q, comps);
      x.cind == Some(w.I16At(q + 8))
      && (w.I16At(q + 8) == 2 ==> x.compName == Some(comps.comp2Name) && x.compCode == Some(comps.compCode2))
      && (w.I16At(q + 8) != 2 ==> x.compName == Some(comps.comp1Name) && x.compCode == Some(comps.compCode1))
  {
  }

  /** Before revision 57 there is one component and no interval has a component index. */
  lemma PlainIntervalsHaveNoComponent(w: Window, p: int, rev: int, j: nat)
    requires rev <= 56
    requires j < |RInfoAt(w, p, rev).rIntervs|
    ensures RInfoAt(w, p, rev).nrDiffComps == 1
    ensures RInfoAt(w, p, rev).rIntervs[j].cind == None
  {
  }

  // ---------------------------------------------------------------------
  // readShopInfo.
  // ---------------------------------------------------------------------

  datatype ShopHead = ShopHead(x1: int, x2: int, scaledArea: Float64, yieldNo1: Float64, yieldNo2: Float64, yieldNo3: Float64, nsc: int)

  /** Two integers, four doubles, the component count and four alignment bytes: 48 bytes. */
  function ShopHeadAt(w: Window, p: int): ShopHead
  {
    ShopHead(w.I32At(p), w.I32At(p + 4), w.F64At(p + 8), w.F64At(p + 16), w.F64At(p + 24), w.F64At(p + 32), w.I32At(p + 40))
  }

  method ReadShopHead(r: ByteReader) returns (res: Result<ShopHead>)
    modifies r
    ensures res.Success? ==> r.win.Within(old(r.pos), 44)
    ensures res.Success? ==> r.pos == old(r.pos) + 48 && res.value == ShopHeadAt(r.win, old(r.pos))
    ensures res.Failure? ==> !r.win.Within(old(r.pos), 44) && res.error.ReadPastEnd?
  {
    var x1 :- r.ReadInteger();
    var x2 :- r.ReadInteger();
    var scaledArea :- r.ReadDouble();
    var yieldNo1 :- r.ReadDouble();
    var yieldNo2 :- r.ReadDouble();
    var yieldNo3 :- r.ReadDouble();
    var nsc :- r.ReadInteger();
    r.IncOffset(4);
    res := Success(ShopHead(x1, x2, scaledArea, yieldNo1, yieldNo2, yieldNo3, nsc));
  }

  /** A shop component: its place in pixels and in units, its nominal size, a string[12] name and its quality. */
  datatype ShopComp = ShopComp(xLpix: int, yTpix: int, widpix: int, lenpix: int, xL: int, yT: int, width: int, length: int,
                               nomWidth: Float64, nomLength: Float64, compName: seq<uint8>, qual: int)

  function ShopCompAt(w: Window, q: int): ShopComp
  {
    ShopComp(w.I32At(q), w.I32At(q + 4), w.I32At(q + 8), w.I32At(q + 12), w.I32At(q + 16), w.I32At(q + 20),
      w.I32At(q + 24), w.I32At(q + 28), w.F64At(q + 32), w.F64At(q + 40), w.Slice(q + 48, 13), w.U8At(q + 61))
  }

  /** The decoder of one record, for runs of them. */
  function ShopCompReader(w: Window): int -> ShopComp { q => ShopCompAt(w, q) }

  function ShopCompsAt(w: Window, p: int, n: nat): (s: seq<ShopComp>)
    ensures |s| == n
  {
    RunAt(ShopCompReader(w), p, 72, n)
  }

  /** The place of a component: eight integers. */
  method ReadShopCompPlace(r: ByteReader) returns (res: Result<(int, int, int, int, int, int, int, int)>)
    modifies r
    ensures res.Success? ==> r.win.Within(old(r.pos), 32)
    ensures res.Success? ==> var p := old(r.pos);
      r.pos == p + 32
      && res.value == (r.win.I32At(p), r.win.I32At(p + 4), r.win.I32At(p + 8), r.win.I32At(p + 12),
                       r.win.I32At(p + 16), r.win.I32At(p + 20), r.win.I32At(p + 24), r.win.I32At(p + 28))
    ensures res.Failure? ==> !r.win.Within(old(r.pos), 32) && res.error.ReadPastEnd?
  {
    var xLpix :- r.ReadInteger();
    var yTpix :- r.ReadInteger();
    var widpix :- r.ReadInteger();
    var lenpix :- r.ReadInteger();
    var xL :- r.ReadInteger();
    var yT :- r.ReadInteger();
    var width :- r.ReadInteger();
    var length :- r.ReadInteger();
    res := Success((xLpix, yTpix, widpix, lenpix, xL, yT, width, length));
  }

  /** 62 bytes read, then three unused bytes and seven alignment bytes. */
  method ReadShopComp(r: ByteReader) returns (res: Result<ShopComp>)
    modifies r
    ensures res.Success? ==> r.win.Within(old(r.pos), 62)
    ensures res.Success? ==> r.pos == old(r.pos) + 72 && res.value == ShopCompAt(r.win, old(r.pos))
    ensures res.Failure? ==> !r.win.Within(old(r.pos), 62) && res.error.ReadPastEnd?
  {
    var place :- ReadShopCompPlace(r);
    var nomWidth :- r.ReadDouble();
    var nomLength :- r.ReadDouble();
    var compName :- r.ReadShortString(12);
    var qual :- r.ReadByte();
    r.IncOffset(3);
    r.IncOffset(7);
    res := Success(ShopComp(place.0, place.1, place.2, place.3, place.4, place.5, place.6, place.7,
      nomWidth, nomLength, compName, qual));
  }

  method ReadShopComps(r: ByteReader, n: int) returns (res: Result<seq<ShopComp>>)
    modifies r
    ensures res.Success? ==> Count(n) == 0 || r.win.Within(old(r.pos), (Count(n) - 1) * 72 + 62)
    ensures res.Success? ==> r.pos == old(r.pos) + Count(n) * 72 && res.value == ShopCompsAt(r.win, old(r.pos), Count(n))
    ensures res.Failure? ==> Count(n) > 0 && !r.win.Within(old(r.pos), (Count(n) - 1) * 72 + 62) && res.error.ReadPastEnd?
  {
    ghost var p0 := r.pos;
    var acc: seq<ShopComp> := [];
    var i := 0;
    while i < Count(n)
      invariant 0 <= i <= Count(n)
      invariant r.pos == p0 + i * 72
      invariant i > 0 ==> r.win.Within(p0, (i - 1) * 72 + 62)
      invariant acc == ShopCompsAt(r.win, p0, i)
    {
      StrideStep(72, 62, i, Count(n));
      ghost var q := r.pos;
      var x :- ReadShopComp(r);
      RunAtStep(ShopCompReader(r.win), p0, 72, i, q, x);
      acc := acc + [x];
      i := i + 1;
    }
    res := Success(acc);
  }

  datatype ShopInfo = ShopInfo(head: ShopHead, shopComps: seq<ShopComp>)

  function ShopInfoAt(w: Window, p: int): ShopInfo
  {
    var head := ShopHeadAt(w, p);
    ShopInfo(head, ShopCompsAt(w, p + 48, Count(head.nsc)))
  }

  /** The head, the components read and the unused slots of the 20 the block has room for. */
  function ShopInfoSize(nsc: int): int
  {
    48 + Count(nsc) * 72 + (20 - nsc) * 72
  }

  /** `readShopInfo`. */
  method ReadShopInfo(r: ByteReader) returns (res: Result<ShopInfo>)
    modifies r
    ensures res.Success? ==> r.win.Within(old(r.pos), 44)
    ensures res.Success? ==> res.value == ShopInfoAt(r.win, old(r.pos))
    ensures res.Success? ==> r.pos == old(r.pos) + ShopInfoSize(res.value.head.nsc)
    ensures res.Failure? ==> res.error.ReadPastEnd?
  {
    var head :- ReadShopHead(r);
    var comps :- ReadShopComps(r, head.nsc);
    r.IncOffset((20 - head.nsc) * 72);
    res := Success(ShopInfo(head, comps));
  }

  /** With 0 to 20 components the block takes 1488 bytes. */
  lemma ShopInfoSizeFixed(nsc: int)
    requires 0 <= nsc <= 20
    ensures ShopInfoSize(nsc) == 1488
  {
  }

  // ---------------------------------------------------------------------
  // The blocks of ReadOneOptSolution.
  // ---------------------------------------------------------------------

  /** The solution type, the three values and the dimension unit (0 before revision 31). */
  datatype SolHead = SolHead(solType: int, totVal: Float64, lumberVal: Float64, chipVal: Float64, du: int)

  function SolHeadSize(rev: int): nat { if rev > 30 then 26 else 25 }

  function SolHeadAt(w: Window, p: int, rev: int): SolHead
  {
    SolHead(w.U8At(p), w.F64At(p + 1), w.F64At(p + 9), w.F64At(p + 17), if rev > 30 then w.U8At(p + 25) else 0)
  }

  method ReadSolHead(r: ByteReader, rev: int) returns (res: Result<SolHead>)
    modifies r
    ensures res.Success? ==> r.win.Within(old(r.pos), SolHeadSize(rev))
    ensures res.Success? ==> r.pos == old(r.pos) + SolHeadSize(rev) && res.value == SolHeadAt(r.win, old(r.pos), rev)
    ensures res.Failure? ==> !r.win.Within(old(r.pos), SolHeadSize(rev)) && res.error.ReadPastEnd?
  {
    var solType :- r.ReadByte();
    var totVal :- r.ReadDouble();
    var lumberVal :- r.ReadDouble();
    var chipVal :- r.ReadDouble();
    var du := 0;
    if rev > 30 {
      du :- r.ReadByte();
    }
    res := Success(SolHead(solType, totVal, lumberVal, chipVal, du));
  }

  /** The remanufacturing information, the shop information, or neither (before revision 43). */
  datatype RemanInfo = NoRemanInfo | RInfoOf(rInfo: RInfo) | ShopInfoOf(shopInfo: ShopInfo)

  /** The remanufacturing solution (rsNormal, 0, by default), its quality and component, and the information. */
  datatype RemanBlock = RemanBlock(remanSol: int, iRemanQ: int, iRemanComp: int, info: RemanInfo)

  /** Bytes before the information: the solution byte, two integers and, above revision 80, the shop flag. */
  function RemanFlagsSize(rev: int): nat { if rev > 80 then 10 else 9 }

  /** Whether the block at `p` holds shop information: above revision 80 a nonzero shop flag. */
  predicate IsShop(w: Window, p: int, rev: int)
  {
    rev > 80 && w.U8At(p + 9) != 0
  }

  function RemanBlockAt(w: Window, p: int, rev: int): RemanBlock
  {
    if rev > 42 then
      var q := p + RemanFlagsSize(rev);
      RemanBlock(w.U8At(p), w.I32At(p + 1), w.I32At(p + 5),
        if IsShop(w, p, rev) then ShopInfoOf(ShopInfoAt(w, q)) else RInfoOf(RInfoAt(w, q, rev)))
    else
      RemanBlock(0, 0, 0, NoRemanInfo)
  }

  /** Bytes of the block with information `info`. */
  function RemanBlockSize(rev: int, info: RemanInfo): int
  {
    if rev > 42 then
      RemanFlagsSize(rev) + match info
        case RInfoOf(i) => RInfoSize(rev, i.head.totNr)
        case ShopInfoOf(s) => ShopInfoSize(s.head.nsc)
        case NoRemanInfo => 0
    else 0
  }

  /** Where the block at `p` ends. */
  function RemanBlockEnd(w: Window, p: int, rev: int): int
  {
    p + RemanBlockSize(rev, RemanBlockAt(w, p, rev).info)
  }

  /** The solution byte, the two integers and the shop flag (false up to revision 80). */
  method ReadRemanFlags(r: ByteReader, rev: int) returns (res: Result<(int, int, int, bool)>)
    modifies r
    ensures res.Success? ==> r.win.Within(old(r.pos), RemanFlagsSize(rev))
    ensures res.Success? ==> var p := old(r.pos);
      r.pos == p + RemanFlagsSize(rev)
      && res.value == (r.win.U8At(p), r.win.I32At(p + 1), r.win.I32At(p + 5), IsShop(r.win, p, rev))
    ensures res.Failure? ==> !r.win.Within(old(r.pos), RemanFlagsSize(rev)) && res.error.ReadPastEnd?
  {
    var remanSol :- r.ReadByte();
    var iRemanQ :- r.ReadInteger();
    var iRemanComp :- r.ReadInteger();
    var rsShop := 0;
    if rev > 80 {
      rsShop :- r.ReadByte();
    }
    res := Success((remanSol, iRemanQ, iRemanComp, rsShop != 0));
  }

  method ReadRemanBlock(r: ByteReader, rev: int) returns (res: Result<RemanBlock>)
    modifies r
    ensures res.Success? ==> res.value == RemanBlockAt(r.win, old(r.pos), rev)
    ensures res.Success? ==> r.pos == old(r.pos) + RemanBlockSize(rev, res.value.info) == RemanBlockEnd(r.win, old(r.pos), rev)
    ensures res.Failure? ==> res.error.ReadPastEnd?
  {
    if rev > 42 {
      var flags :- ReadRemanFlags(r, rev);
      if !flags.3 {
        var rInfo :- ReadRInfo(r, rev);
        res := Success(RemanBlock(flags.0, flags.1, flags.2, RInfoOf(rInfo)));
      } else {
        var shopInfo :- ReadShopInfo(r);
        res := Success(RemanBlock(flags.0, flags.1, flags.2, ShopInfoOf(shopInfo)));
      }
    } else {
      res := Success(RemanBlock(0, 0, 0, NoRemanInfo));
    }
  }

  /**
   * A solution has remanufacturing information or shop information, never
   * both: shop information exactly when the revision stores the shop flag
   * and it is set, and neither before revision 43.
   */
  lemma RemanInfoExclusive(w: Window, p: int, rev: int)
    ensures var info := RemanBlockAt(w, p, rev).info;
      (info.ShopInfoOf? <==> rev > 42 && IsShop(w, p, rev))
      && (info.RInfoOf? <==> rev > 42 && !IsShop(w, p, rev))
      && (info.NoRemanInfo? <==> rev <= 42)
  {
  }

  /** The indices of the solution: thickness, width, quality, sub-class and product. */
  datatype SolIndices = SolIndices(iT: int, iW: int, iQ: int, iSC: int, iProd: int)

  function SolIndicesAt(w: Window, p: int): SolIndices
  {
    SolIndices(w.I32At(p), w.I32At(p + 4), w.I32At(p + 8), w.I32At(p + 12), w.I32At(p + 16))
  }

  method ReadSolIndices(r: ByteReader) returns (res: Result<SolIndices>)
    modifies r
    ensures res.Success? ==> r.win.Within(old(r.pos), 20)
    ensures res.Success? ==> r.pos == old(r.pos) + 20 && res.value == SolIndicesAt(r.win, old(r.pos))
    ensures res.Failure? ==> !r.win.Within(old(r.pos), 20) && res.error.ReadPastEnd?
  {
    var iT :- r.ReadInteger();
    var iW :- r.ReadInteger();
    var iQ :- r.ReadInteger();
    var iSC :- r.ReadInteger();
    var iProd :- r.ReadInteger();
    res := Success(SolIndices(iT, iW, iQ, iSC, iProd));
  }

  /** The cut positions, the modified positions and the additions, as integers; 24 bytes. */
  datatype CutPositions = CutPositions(xcut1: int, xcut2: int, xmod1: int, xmod2: int, add1: int, add2: int)

  function CutPositionsAt(w: Window, p: int): CutPositions
  {
    CutPositions(w.I32At(p), w.I32At(p + 4), w.I32At(p + 8), w.I32At(p + 12), w.I32At(p + 16), w.I32At(p + 20))
  }

  method ReadCutPositions(r: ByteReader) returns (res: Result<CutPositions>)
    modifies r
    ensures res.Success? ==> r.win.Within(old(r.pos), 24)
    ensures res.Success? ==> r.pos == old(r.pos) + 24 && res.value == CutPositionsAt(r.win, old(r.pos))
    ensures res.Failure? ==> !r.win.Within(old(r.pos), 24) && res.error.ReadPastEnd?
  {
    var xcut1 :- r.ReadInteger();
    var xcut2 :- r.ReadInteger();
    var xmod1 :- r.ReadInteger();
    var xmod2 :- r.ReadInteger();
    var add1 :- r.ReadInteger();
    var add2 :- r.ReadInteger();
    res := Success(CutPositions(xcut1, xcut2, xmod1, xmod2, add1, add2));
  }

  /** The same positions as singles, and the modified length (above revision 34). */
  datatype ExactCuts = ExactCuts(xcut1: Float32, xcut2: Float32, xmod1: Float32, xmod2: Float32, add1: Float32, add2: Float32, modLen: Float32)

  function ExactCutsSize(rev: int): nat { if rev > 34 then 28 else 0 }

  /** Seven singles: the exact positions and the modified length. */
  function ExactCutValuesAt(w: Window, p: int): ExactCuts
  {
    ExactCuts(w.F32At(p), w.F32At(p + 4), w.F32At(p + 8), w.F32At(p + 12), w.F32At(p + 16), w.F32At(p + 20), w.F32At(p + 24))
  }

  function ExactCutsAt(w: Window, p: int, rev: int): Option<ExactCuts>
  {
    if rev > 34 then Some(ExactCutValuesAt(w, p)) else None
  }

  method ReadExactCutValues(r: ByteReader) returns (res: Result<ExactCuts>)
    modifies r
    ensures res.Success? ==> r.win.Within(old(r.pos), 28)
    ensures res.Success? ==> r.pos == old(r.pos) + 28 && res.value == ExactCutValuesAt(r.win, old(r.pos))
    ensures res.Failure? ==> !r.win.Within(old(r.pos), 28) && res.error.ReadPastEnd?
  {
    var xcut1 :- r.ReadSingle();
    var xcut2 :- r.ReadSingle();
    var xmod1 :- r.ReadSingle();
    var xmod2 :- r.ReadSingle();
    var add1 :- r.ReadSingle();
    var add2 :- r.ReadSingle();
    var modLen :- r.ReadSingle();
    res := Success(ExactCuts(xcut1, xcut2, xmod1, xmod2, add1, add2, modLen));
  }

  method ReadExactCuts(r: ByteReader, rev: int) returns (res: Result<Option<ExactCuts>>)
    modifies r
    ensures res.Success? ==> ExactCutsSize(rev) == 0 || r.win.Within(old(r.pos), ExactCutsSize(rev))
    ensures res.Success? ==> r.pos == old(r.pos) + ExactCutsSize(rev) && res.value == ExactCutsAt(r.win, old(r.pos), rev)
    ensures res.Failure? ==> ExactCutsSize(rev) > 0 && !r.win.Within(old(r.pos), ExactCutsSize(rev)) && res.error.ReadPastEnd?
  {
    if rev > 34 {
      var exact :- ReadExactCutValues(r);
      res := Success(Some(exact));
    } else {
      res := Success(None);
    }
  }

  /**
   * The reasons for the two cuts and the rejection, the reject reason of
   * the quality grade (above revision 46, after two unused bytes), the solution
   * length as an integer and a single, and the length index (above 94).
   */
  datatype CutReasons = CutReasons(cut1Reason: int, cut2Reason: int, rejectReason: int, dgRejectReason: Option<int>,
                                   solLen: int, solLenExact: Float32, indL: Option<int>)

  function CutReasonsSize(rev: int): nat
  {
    if rev > 38 then 3 + (if rev > 46 then 3 else 0) + 8 + (if rev > 94 then 4 else 0) else 0
  }

  function CutReasonsAt(w: Window, p: int, rev: int): Option<CutReasons>
  {
    if rev > 38 then
      var q := p + 3 + (if rev > 46 then 3 else 0);
      Some(CutReasons(w.U8At(p), w.U8At(p + 1), w.U8At(p + 2), if rev > 46 then Some(w.U8At(p + 5)) else None,
        w.I32At(q), w.F32At(q + 4), if rev > 94 then Some(w.I32At(q + 8)) else None))
    else None
  }

  method ReadCutReasons(r: ByteReader, rev: int) returns (res: Result<Option<CutReasons>>)
    modifies r
    ensures res.Success? ==> CutReasonsSize(rev) == 0 || r.win.Within(old(r.pos), CutReasonsSize(rev))
    ensures res.Success? ==> r.pos == old(r.pos) + CutReasonsSize(rev) && res.value == CutReasonsAt(r.win, old(r.pos), rev)
    ensures res.Failure? ==> CutReasonsSize(rev) > 0 && !r.win.Within(old(r.pos), CutReasonsSize(rev)) && res.error.ReadPastEnd?
  {
    if rev > 38 {
      var cut1Reason :- r.ReadByte();
      var cut2Reason :- r.ReadByte();
      var rejectReason :- r.ReadByte();
      var dgRejectReason := None;
      if rev > 46 {
        r.IncOffset(2);
        var dg :- r.ReadByte();
        dgRejectReason := Some(dg);
      }
      var solLen :- r.ReadInteger();
      var solLenExact :- r.ReadSingle();
      var indL := None;
      if rev > 94 {
        var l :- r.ReadInteger();
        indL := Some(l);
      }
      res := Success(Some(CutReasons(cut1Reason, cut2Reason, rejectReason, dgRejectReason, solLen, solLenExact, indL)));
    } else {
      res := Success(None);
    }
  }

  /** Bytes of the option flags: a byte below revision 51, a word below 68, an integer from 68. */
  function OptFlagsSize(rev: int): nat { if rev < 51 then 1 else if rev < 68 then 2 else 4 }

  /** Revisions 97 to 100 and those above 102 store the second option flags. */
  predicate StoresOptFlags2(rev: int) { (97 <= rev <= 100) || rev > 102 }

  function OptFlags2Size(rev: int): nat { if StoresOptFlags2(rev) then 4 else 0 }

  /**
   * Before revision 128 a trim, edging or upside-down solution has the
   * from-edger and one-scan-direction options added to the second flags.
   */
  function AdjustedOptFlags2(rev: int, solType: int, stored: int): int
  {
    if rev < 128 && IsEdgingSolType(solType) then
      IncludeInSet(IncludeInSet(stored, opt2_FromEdger.Value()), opt2_1ScanDirs.Value())
    else stored
  }

  /** The option flags and the second option flags (0 when not stored, then adjusted). */
  function OptFlagsAt(w: Window, p: int, rev: int, solType: int): (int, int)
  {
    var flags := if rev < 51 then w.U8At(p) else if rev < 68 then w.U16At(p) else w.I32At(p);
    var stored := if StoresOptFlags2(rev) then w.I32At(p + OptFlagsSize(rev)) else 0;
    (flags, AdjustedOptFlags2(rev, solType, stored))
  }

  method ReadOptFlags(r: ByteReader, rev: int, solType: int) returns (res: Result<(int, int)>)
    modifies r
    ensures res.Success? ==> r.win.Within(old(r.pos), OptFlagsSize(rev) + OptFlags2Size(rev))
    ensures res.Success? ==> r.pos == old(r.pos) + OptFlagsSize(rev) + OptFlags2Size(rev)
    ensures res.Success? ==> res.value == OptFlagsAt(r.win, old(r.pos), rev, solType)
    ensures res.Failure? ==> !r.win.Within(old(r.pos), OptFlagsSize(rev) + OptFlags2Size(rev)) && res.error.ReadPastEnd?
  {
    var optFlags: int;
    if rev < 51 {
      optFlags :- r.ReadByte();
    } else if rev < 68 {
      optFlags :- r.ReadWord();
    } else {
      optFlags :- r.ReadInteger();
    }
    var stored := 0;
    if StoresOptFlags2(rev) {
      stored :- r.ReadInteger();
    }
    var optFlags2 := AdjustedOptFlags2(rev, solType, stored);
    res := Success((optFlags, optFlags2));
  }

  /** The displacement (above revision 69, else 0) and the raw width (a double above 70, else the integer 0). */
  function MeasuresSize(rev: int): nat { (if rev > 69 then 4 else 0) + (if rev > 70 then 8 else 0) }

  function MeasuresAt(w: Window, p: int, rev: int): (int, Num)
  {
    (if rev > 69 then w.I32At(p) else 0, if rev > 70 then F64(w.F64At(p + 4)) else Int(0))
  }

  method ReadMeasures(r: ByteReader, rev: int) returns (res: Result<(int, Num)>)
    modifies r
    ensures res.Success? ==> MeasuresSize(rev) == 0 || r.win.Within(old(r.pos), MeasuresSize(rev))
    ensures res.Success? ==> r.pos == old(r.pos) + MeasuresSize(rev) && res.value == MeasuresAt(r.win, old(r.pos), rev)
    ensures res.Failure? ==> MeasuresSize(rev) > 0 && !r.win.Within(old(r.pos), MeasuresSize(rev)) && res.error.ReadPastEnd?
  {
    var displc := 0;
    if rev > 69 {
      displc :- r.ReadInteger();
    }
    var rawW := Int(0);
    if rev > 70 {
      var d :- r.ReadDouble();
      rawW := F64(d);
    }
    res := Success((displc, rawW));
  }

  /**
   * The grading intervals (a 64-bit set when stored, from revision 73) and
   * the quality-selection indices, 0 when not stored; the fourth index is
   * `undefined` up to revision 87.
   */
  datatype GradingBlock = GradingBlock(gradingIntvs: int, indQSA1: int, indQSA2: int, indQSA3: int, indQSA4: Option<int>)

  function GradingBlockSize(rev: int): nat { if rev > 72 then 40 else 0 }

  function GradingBlockAt(w: Window, p: int, rev: int): GradingBlock
  {
    if rev > 87 then GradingBlock(w.U64At(p), w.I32At(p + 8), w.I32At(p + 12), w.I32At(p + 16), Some(w.I32At(p + 20)))
    else if rev > 82 then GradingBlock(w.U64At(p), w.I32At(p + 8), w.I32At(p + 12), 0, None)
    else if rev > 72 then GradingBlock(w.U64At(p), 0, 0, 0, None)
    else GradingBlock(0, 0, 0, 0, None)
  }

  /** Bytes of the grading block that are read: the vacant integers after them are skipped. */
  function GradingReadSize(rev: int): nat { if rev > 87 then 24 else if rev > 82 then 16 else if rev > 72 then 8 else 0 }

  method ReadGradingBlock(r: ByteReader, rev: int) returns (res: Result<GradingBlock>)
    modifies r
    ensures res.Success? ==> GradingReadSize(rev) == 0 || r.win.Within(old(r.pos), GradingReadSize(rev))
    ensures res.Success? ==> r.pos == old(r.pos) + GradingBlockSize(rev) && res.value == GradingBlockAt(r.win, old(r.pos), rev)
    ensures res.Failure? ==> GradingReadSize(rev) > 0 && !r.win.Within(old(r.pos), GradingReadSize(rev)) && res.error.ReadPastEnd?
  {
    if rev > 72 {
      var gradingIntvs :- r.ReadUInt64();
      if rev > 82 {
        var indQSA1 :- r.ReadInteger();
        var indQSA2 :- r.ReadInteger();
        if rev > 87 {
          var indQSA3 :- r.ReadInteger();
          var indQSA4 :- r.ReadInteger();
          r.IncOffset(4 * 4);
          res := Success(GradingBlock(gradingIntvs, indQSA1, indQSA2, indQSA3, Some(indQSA4)));
        } else {
          r.IncOffset(6 * 4);
          res := Success(GradingBlock(gradingIntvs, indQSA1, indQSA2, 0, None));
        }
      } else {
        r.IncOffset(8 * 4);
        res := Success(GradingBlock(gradingIntvs, 0, 0, 0, None));
      }
    } else {
      res := Success(GradingBlock(0, 0, 0, 0, None));
    }
  }

  /** The indices, the cut positions, the exact cuts and the cut reasons. */
  datatype SolCuts = SolCuts(indices: SolIndices, positions: CutPositions, exact: Option<ExactCuts>, reasons: Option<CutReasons>)

  function SolCutsAt(w: Window, p: int, rev: int): SolCuts
  {
    SolCuts(SolIndicesAt(w, p), CutPositionsAt(w, p + 20), ExactCutsAt(w, p + 44, rev), CutReasonsAt(w, p + 44 + ExactCutsSize(rev), rev))
  }

  function SolCutsSize(rev: int): nat { 44 + ExactCutsSize(rev) + CutReasonsSize(rev) }

  method ReadSolCuts(r: ByteReader, rev: int) returns (res: Result<SolCuts>)
    modifies r
    ensures res.Success? ==> r.pos == old(r.pos) + SolCutsSize(rev) && res.value == SolCutsAt(r.win, old(r.pos), rev)
    ensures res.Failure? ==> res.error.ReadPastEnd?
  {
    var indices :- ReadSolIndices(r);
    var positions :- ReadCutPositions(r);
    var exact :- ReadExactCuts(r, rev);
    var reasons :- ReadCutReasons(r, rev);
    res := Success(SolCuts(indices, positions, exact, reasons));
  }

  /** The option flags, the displacement, the raw width and the grading block. */
  datatype SolSettings = SolSettings(optFlags: int, optFlags2: int, displc: int, rawW: Num, grading: GradingBlock)

  function SolSettingsAt(w: Window, p: int, rev: int, solType: int): SolSettings
  {
    var q := p + OptFlagsSize(rev) + OptFlags2Size(rev);
    var flags := OptFlagsAt(w, p, rev, solType);
    var measures := MeasuresAt(w, q, rev);
    SolSettings(flags.0, flags.1, measures.0, measures.1, GradingBlockAt(w, q + MeasuresSize(rev), rev))
  }

  function SolSettingsSize(rev: int): nat
  {
    OptFlagsSize(rev) + OptFlags2Size(rev) + MeasuresSize(rev) + GradingBlockSize(rev)
  }

  method ReadSolSettings(r: ByteReader, rev: int, solType: int) returns (res: Result<SolSettings>)
    modifies r
    ensures res.Success? ==> r.pos == old(r.pos) + SolSettingsSize(rev) && res.value == SolSettingsAt(r.win, old(r.pos), rev, solType)
    ensures res.Failure? ==> res.error.ReadPastEnd?
  {
    var flags :- ReadOptFlags(r, rev, solType);
    var measures :- ReadMeasures(r, rev);
    var grading :- ReadGradingBlock(r, rev);
    res := Success(SolSettings(flags.0, flags.1, measures.0, measures.1, grading));
  }

  // ---------------------------------------------------------------------
  // ReadOneOptSolution.
  // ---------------------------------------------------------------------

  /** Everything stored before the quality-interval limits. */
  datatype SolBody = SolBody(head: SolHead, reman: RemanBlock, cuts: SolCuts, settings: SolSettings)

  datatype OptSolution = OptSolution(body: SolBody, qfi: QFI)

  function SolCutsEnd(p: int, rev: int): int { p + SolCutsSize(rev) }

  function SolSettingsEnd(p: int, rev: int): int { p + SolSettingsSize(rev) }

  /** Where the solution's values end and its remanufacturing block starts. */
  function SolHeadEnd(p: int, rev: int): int { p + SolHeadSize(rev) }

  /** Where the remanufacturing block of the solution at `p` ends. */
  function RemanEnd(w: Window, p: int, rev: int): int
  {
    RemanBlockEnd(w, SolHeadEnd(p, rev), rev)
  }

  function SolBodyAt(w: Window, p: int, rev: int): SolBody
  {
    var head := SolHeadAt(w, p, rev);
    var q := RemanEnd(w, p, rev);
    SolBody(head, RemanBlockAt(w, SolHeadEnd(p, rev), rev), SolCutsAt(w, q, rev),
      SolSettingsAt(w, SolCutsEnd(q, rev), rev, head.solType))
  }

  /** Where the quality-interval limits of the solution at `p` start. */
  function QfiStart(w: Window, p: int, rev: int): int
  {
    SolSettingsEnd(SolCutsEnd(RemanEnd(w, p, rev), rev), rev)
  }

  method ReadSolBody(r: ByteReader, rev: int) returns (res: Result<SolBody>)
    modifies r
    ensures res.Success? ==> res.value == SolBodyAt(r.win, old(r.pos), rev) && r.pos == QfiStart(r.win, old(r.pos), rev)
    ensures res.Failure? ==> res.error.ReadPastEnd?
  {
    ghost var p := r.pos;
    var head :- ReadSolHead(r, rev);
    assert r.pos == SolHeadEnd(p, rev);
    var reman :- ReadRemanBlock(r, rev);
    ghost var q := r.pos;
    var cuts :- ReadSolCuts(r, rev);
    assert r.pos == SolCutsEnd(q, rev);
    ghost var t := r.pos;
    var settings :- ReadSolSettings(r, rev, head.solType);
    assert r.pos == SolSettingsEnd(t, rev);
    assert head == SolHeadAt(r.win, p, rev);
    assert reman == RemanBlockAt(r.win, SolHeadEnd(p, rev), rev);
    assert q == RemanEnd(r.win, p, rev);
    assert cuts == SolCutsAt(r.win, RemanEnd(r.win, p, rev), rev);
    assert settings == SolSettingsAt(r.win, SolCutsEnd(RemanEnd(r.win, p, rev), rev), rev, head.solType);
    res := Success(SolBody(head, reman, cuts, settings));
  }

  function OptSolutionAt(w: Window, p: int, rev: int): OptSolution
  {
    OptSolution(SolBodyAt(w, p, rev), QfiAt(w, QfiStart(w, p, rev), rev))
  }

  /** Where the solution at `p` ends. */
  function OptSolutionEnd(w: Window, p: int, rev: int): int
  {
    QfiEnd(w, QfiStart(w, p, rev), rev)
  }

  /** `ReadOneOptSolution`. */
  method ReadOneOptSolution(r: ByteReader, rev: int) returns (res: Result<OptSolution>)
    modifies r
    ensures res.Success? ==> res.value == OptSolutionAt(r.win, old(r.pos), rev) && r.pos == OptSolutionEnd(r.win, old(r.pos), rev)
    ensures res.Failure? ==> res.error.ReadPastEnd?
  {
    var body :- ReadSolBody(r, rev);
    var qfi :- ReadQFI(r, rev);
    res := Success(OptSolution(body, qfi));
  }

  // ---------------------------------------------------------------------
  // Properties.
  // ---------------------------------------------------------------------

  /** The option flags take one byte below revision 51, two up to 67 and four from 68. */
  lemma OptFlagsWidths(rev: int)
    ensures rev < 51 ==> OptFlagsSize(rev) == 1
    ensures 51 <= rev < 68 ==> OptFlagsSize(rev) == 2
    ensures rev >= 68 ==> OptFlagsSize(rev) == 4
  {
  }

  /**
   * Before revision 128 a trim, edging or upside-down solution has the
   * from-edger and one-scan-direction options set, whatever was stored,
   * and keeps every other option it stored; any other solution keeps its
   * stored flags.
   */
  lemma AdjustedFlagsMembers(rev: int, solType: int, stored: int, e: int)
    requires 0 <= e <= 30
    ensures var f := AdjustedOptFlags2(rev, solType, stored);
      (rev < 128 && IsEdgingSolType(solType) ==>
        IsInSet(f, opt2_FromEdger.Value()) && IsInSet(f, opt2_1ScanDirs.Value())
        && (e != opt2_FromEdger.Value() && e != opt2_1ScanDirs.Value() ==> IsInSet(f, e) == IsInSet(stored, e)))
      && (!(rev < 128 && IsEdgingSolType(solType)) ==> f == stored)
  {
    if rev < 128 && IsEdgingSolType(solType) {
      var s1 := IncludeInSet(stored, 8);
      IsInSetAfterInclude(s1, 7);
      IsInSetAfterInclude(stored, 8);
      IncludeKeepsOtherMembers(s1, 7, 8);
      if e != 8 && e != 7 {
        IncludeKeepsOtherMembers(s1, 7, e);
        IncludeKeepsOtherMembers(stored, 8, e);
      }
    }
  }

  /** Files from revision 128 on keep the second option flags as stored (0 when the revision does not store them). */
  lemma CurrentFlagsAsStored(w: Window, p: int, rev: int, solType: int)
    requires rev >= 128
    ensures OptFlagsAt(w, p, rev, solType).1 == w.I32At(p + 4)
  {
  }

  /** In the files that store the grading block it takes 40 bytes in every layout: what is not read is vacant. */
  lemma GradingBlockFixed(rev: int)
    ensures rev > 72 ==> GradingBlockSize(rev) == 40 && GradingReadSize(rev) <= 40
    ensures rev <= 72 ==> GradingBlockSize(rev) == 0
  {
  }

  /** The fourth quality-selection index exists exactly above revision 87. */
  lemma FourthIndexFrom88(w: Window, p: int, rev: int)
    ensures GradingBlockAt(w, p, rev).indQSA4.Some? <==> rev > 87
  {
  }

  /** Between the remanufacturing information and the limits a current file stores 90 bytes of cuts and 60 of settings. */
  lemma SolBlockSizesCurrent(rev: int)
    requires rev > 102
    ensures SolCutsSize(rev) == 90 && SolSettingsSize(rev) == 60
  {
  }
}
