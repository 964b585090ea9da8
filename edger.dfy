/**
 * The edger solution (readEdgSol): a head, sixteen strips (readStrip),
 * each holding up to sixteen strip solutions in a table of sixteen slots,
 * the positioning arms (readPosArms) and the trimming settings. Arrays the
 * source indexes from 1 are sequences indexed from 0 here.
 */
module Edger {
  import opened Wrappers
  import opened Bytes
  import opened Reader
  import opened Arrays
  import opened Solution

  // ---------------------------------------------------------------------
  // Positioning arms.
  // ---------------------------------------------------------------------

  /** One arm: its position, type, displacement and whether it is used; 13 bytes read, 16 taken. */
  datatype PosArm = PosArm(x: int, armType: int, posDisplc: int, used: bool)

  function PosArmAt(w: Window, p: int): PosArm
  {
    PosArm(w.I32At(p), w.U8At(p + 4), w.I32At(p + 8), w.BoolAt(p + 12))
  }

  method ReadPosArm(r: ByteReader) returns (res: Result<PosArm>)
    modifies r
    ensures res.Success? ==> r.win.Within(old(r.pos), 13)
    ensures res.Success? ==> r.pos == old(r.pos) + 16 && res.value == PosArmAt(r.win, old(r.pos))
    ensures res.Failure? ==> !r.win.Within(old(r.pos), 13) && res.error.ReadPastEnd?
  {
    var x :- r.ReadInteger();
    var armType :- r.ReadByte();
    r.IncOffset(3);
    var posDisplc :- r.ReadInteger();
    var used :- r.ReadBoolean();
    r.IncOffset(3);
    res := Success(PosArm(x, armType, posDisplc, used));
  }

  /** The number of arms an edger solution always holds. */
  const ArmCount: nat := 6

  /** The decoder of one arm, for runs of them. */
  function PosArmReader(w: Window): int -> PosArm { q => PosArmAt(w, q) }

  /** The six arms from `p`, 16 bytes apart. */
  function PosArmsAt(w: Window, p: int): (s: seq<PosArm>)
    ensures |s| == ArmCount
  {
    RunAt(PosArmReader(w), p, 16, ArmCount)
  }

  /** readPosArms: six arms, 96 bytes, the last read ending 93 bytes in. */
  method ReadPosArms(r: ByteReader) returns (res: Result<seq<PosArm>>)
    modifies r
    ensures res.Success? ==> r.win.Within(old(r.pos), 93)
    ensures res.Success? ==> r.pos == old(r.pos) + 96 && res.value == PosArmsAt(r.win, old(r.pos))
    ensures res.Failure? ==> !r.win.Within(old(r.pos), 93) && res.error.ReadPastEnd?
  {
    ghost var p0 := r.pos;
    var acc: seq<PosArm> := [];
    var i := 0;
    while i < ArmCount
      invariant 0 <= i <= ArmCount
      invariant r.pos == p0 + i * 16
      invariant i > 0 ==> r.win.Within(p0, (i - 1) * 16 + 13)
      invariant acc == RunAt(PosArmReader(r.win), p0, 16, i)
    {
      StrideStep(16, 13, i, ArmCount);
      ghost var q := r.pos;
      var x :- ReadPosArm(r);
      RunAtStep(PosArmReader(r.win), p0, 16, i, q, x);
      acc := acc + [x];
      i := i + 1;
    }
    res := Success(acc);
  }

  // ---------------------------------------------------------------------
  // Strip solutions.
  // ---------------------------------------------------------------------

  /** The solution type, the values and the dimension unit, aligned: 33 bytes read, 36 taken. */
  function StripSolHeadAt(w: Window, p: int): SolHead
  {
    var v := ThreeDoublesAt(w, p + 8);
    SolHead(w.U8At(p), v.0, v.1, v.2, w.U8At(p + 32))
  }

  method ReadStripSolHead(r: ByteReader) returns (res: Result<SolHead>)
    modifies r
    ensures res.Success? ==> r.win.Within(old(r.pos), 33)
    ensures res.Success? ==> r.pos == old(r.pos) + 36 && res.value == StripSolHeadAt(r.win, old(r.pos))
    ensures res.Failure? ==> !r.win.Within(old(r.pos), 33) && res.error.ReadPastEnd?
  {
    ghost var p := r.pos;
    var solType :- r.ReadByte();
    r.IncOffset(7);
    var v :- ReadThreeDoubles(r);
    var du :- r.ReadByte();
    r.IncOffset(3);
    assert v == ThreeDoublesAt(r.win, p + 8);
    res := Success(SolHead(solType, v.0, v.1, v.2, du));
  }

  /**
   * The option flags and the cut and reject reasons of a strip solution; the
   * edge order, the side reasons, the quality reasons and the
   * re-optimisation block are skipped. 10 bytes read, 32 taken.
   */
  datatype StripSolReasons = StripSolReasons(optFlags: int, cut1Reason: int, cut2Reason: int, rejectReason: int)

  function StripSolReasonsAt(w: Window, p: int): StripSolReasons
  {
    StripSolReasons(w.U8At(p), w.U8At(p + 5), w.U8At(p + 6), w.U8At(p + 9))
  }

  method ReadStripSolReasons(r: ByteReader) returns (res: Result<StripSolReasons>)
    modifies r
    ensures res.Success? ==> r.win.Within(old(r.pos), 10)
    ensures res.Success? ==> r.pos == old(r.pos) + 32 && res.value == StripSolReasonsAt(r.win, old(r.pos))
    ensures res.Failure? ==> !r.win.Within(old(r.pos), 10) && res.error.ReadPastEnd?
  {
    var optFlags :- r.ReadByte();
    r.IncOffset(3);
    r.IncOffset(1);         // edge order
    var cut1Reason :- r.ReadByte();
    var cut2Reason :- r.ReadByte();
    r.IncOffset(2);         // side cut reasons
    var rejectReason :- r.ReadByte();
    r.IncOffset(3);         // quality reasons
    r.IncOffset(1);
    r.IncOffset(2);
    r.IncOffset(16);        // re-optimisation
    res := Success(StripSolReasons(optFlags, cut1Reason, cut2Reason, rejectReason));
  }

  /** The reasons, the displacement and the protocol version: the last 44 bytes of a strip solution, 40 read. */
  datatype StripSolTail = StripSolTail(reasons: StripSolReasons, displc: int, protocolVersion: int)

  function StripSolTailAt(w: Window, p: int): StripSolTail
  {
    StripSolTail(StripSolReasonsAt(w, p), w.I32At(p + 32), w.I32At(p + 36))
  }

  method ReadStripSolTail(r: ByteReader) returns (res: Result<StripSolTail>)
    modifies r
    ensures res.Success? ==> r.win.Within(old(r.pos), 40)
    ensures res.Success? ==> r.pos == old(r.pos) + 44 && res.value == StripSolTailAt(r.win, old(r.pos))
    ensures res.Failure? ==> !r.win.Within(old(r.pos), 40) && res.error.ReadPastEnd?
  {
    ghost var p := r.pos;
    var reasons :- ReadStripSolReasons(r);
    assert r.pos == p + 32;
    var displc :- r.ReadInteger();
    var protocolVersion :- r.ReadInteger();
    r.IncOffset(4);
    assert reasons == StripSolReasonsAt(r.win, p);
    res := Success(StripSolTail(reasons, displc, protocolVersion));
  }

  /** The head, the indices and the raw width: the first 64 bytes of a strip solution. */
  datatype StripSolFront = StripSolFront(head: SolHead, indices: SolIndices, rawW: Float64)

  /** The cut positions and the solution length, as integers and as singles: the next 60 bytes. */
  datatype StripSolCuts = StripSolCuts(positions: CutPositions, solLen: int, exact: ExactCuts, solLenExact: Float32)

  /** One solution of a strip: 164 bytes read, 168 taken. */
  datatype StripSolution = StripSolution(front: StripSolFront, cuts: StripSolCuts, tail: StripSolTail)

  const StripSolutionSize: nat := 168
  const StripSolutionReadEnd: nat := 164

  function StripSolFrontAt(w: Window, p: int): StripSolFront
  {
    StripSolFront(StripSolHeadAt(w, p), SolIndicesAt(w, p + 36), w.F64At(p + 56))
  }

  method ReadStripSolFront(r: ByteReader) returns (res: Result<StripSolFront>)
    modifies r
    ensures res.Success? ==> r.win.Within(old(r.pos), 64)
    ensures res.Success? ==> r.pos == old(r.pos) + 64 && res.value == StripSolFrontAt(r.win, old(r.pos))
    ensures res.Failure? ==> !r.win.Within(old(r.pos), 64) && res.error.ReadPastEnd?
  {
    ghost var p := r.pos;
    var head :- ReadStripSolHead(r);
    var indices :- ReadSolIndices(r);
    var rawW :- r.ReadDouble();
    assert head == StripSolHeadAt(r.win, p) && indices == SolIndicesAt(r.win, p + 36);
    res := Success(StripSolFront(head, indices, rawW));
  }

  function StripSolCutsAt(w: Window, p: int): StripSolCuts
  {
    StripSolCuts(CutPositionsAt(w, p), w.I32At(p + 24), ExactCutValuesAt(w, p + 28), w.F32At(p + 56))
  }

  method ReadStripSolCuts(r: ByteReader) returns (res: Result<StripSolCuts>)
    modifies r
    ensures res.Success? ==> r.win.Within(old(r.pos), 60)
    ensures res.Success? ==> r.pos == old(r.pos) + 60 && res.value == StripSolCutsAt(r.win, old(r.pos))
    ensures res.Failure? ==> !r.win.Within(old(r.pos), 60) && res.error.ReadPastEnd?
  {
    ghost var p := r.pos;
    var cuts :- ReadCutPositions(r);
    var solLen :- r.ReadInteger();
    var exact :- ReadExactCutValues(r);
    var solLenExact :- r.ReadSingle();
    assert cuts == CutPositionsAt(r.win, p) && exact == ExactCutValuesAt(r.win, p + 28);
    res := Success(StripSolCuts(cuts, solLen, exact, solLenExact));
  }

  function StripSolutionAt(w: Window, p: int): StripSolution
  {
    StripSolution(StripSolFrontAt(w, p), StripSolCutsAt(w, p + 64), StripSolTailAt(w, p + 124))
  }

  method ReadStripSolution(r: ByteReader) returns (res: Result<StripSolution>)
    modifies r
    ensures res.Success? ==> r.win.Within(old(r.pos), StripSolutionReadEnd)
    ensures res.Success? ==> r.pos == old(r.pos) + StripSolutionSize && res.value == StripSolutionAt(r.win, old(r.pos))
    ensures res.Failure? ==> res.error.ReadPastEnd?
  {
    ghost var p := r.pos;
    var a :- ReadStripSolFront(r);
    assert r.pos == p + 64;
    var b :- ReadStripSolCuts(r);
    assert r.pos == p + 124;
    var tail :- ReadStripSolTail(r);
    assert a == StripSolFrontAt(r.win, p) && b == StripSolCutsAt(r.win, p + 64) && tail == StripSolTailAt(r.win, p + 124);
    res := Success(StripSolution(a, b, tail));
  }

  /** The decoder of one strip solution, for runs of them. */
  function StripSolutionReader(w: Window): int -> StripSolution { q => StripSolutionAt(w, q) }

  /** `n` strip solutions from `p`, 168 bytes apart. */
  function StripSolutionsAt(w: Window, p: int, n: nat): (s: seq<StripSolution>)
    ensures |s| == n
  {
    RunAt(StripSolutionReader(w), p, StripSolutionSize, n)
  }

  /** The loop over the strip solutions the count declares; none when it is not positive. */
  method ReadStripSolutions(r: ByteReader, n: int) returns (res: Result<seq<StripSolution>>)
    modifies r
    ensures res.Success? ==> Count(n) == 0 || r.win.Within(old(r.pos), (Count(n) - 1) * StripSolutionSize + StripSolutionReadEnd)
    ensures res.Success? ==> r.pos == old(r.pos) + Count(n) * StripSolutionSize
    ensures res.Success? ==> res.value == StripSolutionsAt(r.win, old(r.pos), Count(n))
    ensures res.Failure? ==> Count(n) > 0 && res.error.ReadPastEnd?
  {
    ghost var p0 := r.pos;
    var acc: seq<StripSolution> := [];
    var i := 0;
    while i < Count(n)
      invariant 0 <= i <= Count(n)
      invariant r.pos == p0 + i * StripSolutionSize
      invariant i > 0 ==> r.win.Within(p0, (i - 1) * StripSolutionSize + StripSolutionReadEnd)
      invariant acc == RunAt(StripSolutionReader(r.win), p0, StripSolutionSize, i)
    {
      StrideStep(StripSolutionSize, StripSolutionReadEnd, i, Count(n));
      ghost var q := r.pos;
      var x :- ReadStripSolution(r);
      RunAtStep(StripSolutionReader(r.win), p0, StripSolutionSize, i, q, x);
      acc := acc + [x];
      i := i + 1;
    }
    res := Success(acc);
  }

  // ---------------------------------------------------------------------
  // Strips.
  // ---------------------------------------------------------------------

  /** One edge of a strip: the coordinate, the edge and whether it is cut; 13 bytes read, 16 taken. */
  datatype StripEdge = StripEdge(y: Float64, edge: int, hasCut: bool)

  function StripEdgeAt(w: Window, p: int): StripEdge
  {
    StripEdge(w.F64At(p), w.I32At(p + 8), w.BoolAt(p + 12))
  }

  method ReadStripEdge(r: ByteReader) returns (res: Result<StripEdge>)
    modifies r
    ensures res.Success? ==> r.win.Within(old(r.pos), 13)
    ensures res.Success? ==> r.pos == old(r.pos) + 16 && res.value == StripEdgeAt(r.win, old(r.pos))
    ensures res.Failure? ==> !r.win.Within(old(r.pos), 13) && res.error.ReadPastEnd?
  {
    var y :- r.ReadDouble();
    var edge :- r.ReadInteger();
    var hasCut :- r.ReadBoolean();
    r.IncOffset(3);
    res := Success(StripEdge(y, edge, hasCut));
  }

  /** The number of solution slots of a strip. */
  const StripSlots: nat := 16

  /** `nStripSolutions` as the source keeps it: the stored count, lowered to 16 when above. */
  function ClampSolutions(stored: int): (n: int)
    ensures n <= StripSlots
    ensures stored <= StripSlots ==> n == stored
    ensures stored > StripSlots ==> n == StripSlots
  {
    if stored > StripSlots then StripSlots else stored
  }

  /**
   * The bytes of a strip with `n` solutions: both edges, the count and its
   * alignment, the solutions read and the slots skipped after them. For a
   * negative count no solution is read and 16 - n slots are skipped.
   */
  function StripSize(n: int): int
  {
    40 + SolutionTableSize(n)
  }

  /** The bytes of the solution table of a strip with `n` solutions: those read and the slots skipped. */
  function SolutionTableSize(n: int): int
  {
    Count(n) * StripSolutionSize + (StripSlots - n) * StripSolutionSize
  }

  /** The solutions of a strip with `n` of them, then the skip over the unused slots. */
  method ReadSolutionTable(r: ByteReader, n: int) returns (res: Result<seq<StripSolution>>)
    modifies r
    ensures res.Success? ==> res.value == StripSolutionsAt(r.win, old(r.pos), Count(n))
    ensures res.Success? ==> r.pos == old(r.pos) + SolutionTableSize(n)
    ensures res.Failure? ==> res.error.ReadPastEnd?
  {
    var solutions :- ReadStripSolutions(r, n);
    r.IncOffset((16 - n) * 168);
    res := Success(solutions);
  }

  /** A strip: both edges, the solution count as clamped and the solutions read. */
  datatype Strip = Strip(y1: StripEdge, y2: StripEdge, nStripSolutions: int, solutions: seq<StripSolution>)

  /** The solution count stored in the strip at `p`. */
  function StoredSolutionCount(w: Window, p: int): int { w.I32At(p + 32) }

  /** The solution count of the strip at `p`, as the source keeps it. */
  function StripCountAt(w: Window, p: int): int { ClampSolutions(StoredSolutionCount(w, p)) }

  function StripAt(w: Window, p: int): Strip
  {
    var n := StripCountAt(w, p);
    Strip(StripEdgeAt(w, p), StripEdgeAt(w, p + 16), n, StripSolutionsAt(w, p + 40, Count(n)))
  }

  /** The bytes the strip stored at `p` takes. */
  function StripSizeAt(w: Window, p: int): int
  {
    StripSize(StripCountAt(w, p))
  }

  /** readStrip. */
  method ReadStrip(r: ByteReader) returns (res: Result<Strip>)
    modifies r
    ensures res.Success? ==> res.value == StripAt(r.win, old(r.pos))
    ensures res.Success? ==> r.pos == old(r.pos) + StripSizeAt(r.win, old(r.pos))
    ensures res.Failure? ==> res.error.ReadPastEnd?
  {
    ghost var p := r.pos;
    var y1 :- ReadStripEdge(r);
    var y2 :- ReadStripEdge(r);
    var n :- r.ReadInteger();
    assert n == StoredSolutionCount(r.win, p);
    if n > 16 {
      n := 16;
    }
    assert n == StripCountAt(r.win, p);
    r.IncOffset(4);
    assert r.pos == p + 40;
    var solutions :- ReadSolutionTable(r, n);
    res := Success(Strip(y1, y2, n, solutions));
  }

  /** A strip holds at most 16 solutions, all it declares when the count is not negative. */
  lemma StripSolutionsBounded(w: Window, p: int)
    ensures StripAt(w, p).nStripSolutions <= StripSlots
    ensures |StripAt(w, p).solutions| <= StripSlots
    ensures StoredSolutionCount(w, p) >= 0 ==> |StripAt(w, p).solutions| == ClampSolutions(StoredSolutionCount(w, p))
  {
  }

  /** A strip whose count is not negative takes the 2728 bytes of the full table, whatever the count. */
  lemma StripSizeFixed(n: int)
    ensures n >= 0 ==> StripSize(n) == 2728
    ensures n < 0 ==> StripSize(n) == 2728 - n * StripSolutionSize
  {
  }

  /** The decoder of one strip and the size of one strip, for chains of them. */
  function StripReader(w: Window): int -> Strip { q => StripAt(w, q) }
  function StripSizeReader(w: Window): int -> int { q => StripSizeAt(w, q) }

  /** Where strip `i` of a run from `p` starts: each strip takes the size of its own table. */
  function StripPos(w: Window, p: int, i: nat): int
  {
    ChainPos(StripSizeReader(w), p, i)
  }

  /** The `n` strips stored back to back from `p`. */
  function StripsAt(w: Window, p: int, n: nat): (s: seq<Strip>)
    ensures |s| == n
  {
    ChainAt(StripReader(w), StripSizeReader(w), p, n)
  }

  /** Strip `i + 1` starts where strip `i` ends. */
  lemma StripPosStep(w: Window, p: int, i: nat)
    ensures StripPos(w, p, i + 1) == StripPos(w, p, i) + StripSizeAt(w, StripPos(w, p, i))
  {
    assert StripSizeReader(w)(StripPos(w, p, i)) == StripSizeAt(w, StripPos(w, p, i));
  }

  /** The number of strips of an edger solution. */
  const StripCount: nat := 16

  /** The sixteen strips of an edger solution. */
  method ReadStrips(r: ByteReader, n: nat) returns (res: Result<seq<Strip>>)
    modifies r
    ensures res.Success? ==> res.value == StripsAt(r.win, old(r.pos), n)
    ensures res.Success? ==> r.pos == StripPos(r.win, old(r.pos), n)
    ensures res.Failure? ==> res.error.ReadPastEnd?
  {
    ghost var p0 := r.pos;
    var acc: seq<Strip> := [];
    var i := 0;
    while i < n
      invariant 0 <= i <= n
      invariant r.pos == ChainPos(StripSizeReader(r.win), p0, i)
      invariant acc == ChainAt(StripReader(r.win), StripSizeReader(r.win), p0, i)
    {
      ghost var q := r.pos;
      var x :- ReadStrip(r);
      ChainAtStep(StripReader(r.win), StripSizeReader(r.win), p0, i, q, x);
      acc := acc + [x];
      i := i + 1;
    }
    res := Success(acc);
  }

  /** No strip of the first `n` from `p` stores a negative solution count. */
  predicate NoNegativeCounts(w: Window, p: int, n: nat)
  {
    forall k: nat :: k < n ==> StoredSolutionCount(w, StripPos(w, p, k)) >= 0
  }

  /** When no strip stores a negative count, strip `n` starts `n` full tables after the first. */
  lemma {:induction false} StripPosRegular(w: Window, p: int, n: nat)
    requires NoNegativeCounts(w, p, n)
    decreases n
    ensures StripPos(w, p, n) == p + 2728 * n
  {
    if n > 0 {
      assert NoNegativeCounts(w, p, n - 1);
      StripPosRegular(w, p, n - 1);
      StripPosStep(w, p, n - 1);
      var q := StripPos(w, p, n - 1);
      assert StoredSolutionCount(w, q) >= 0;
      StripSizeFixed(StripCountAt(w, q));
    }
  }

  /** Later strips start no earlier when no count is negative: each strip takes at least 2728 bytes. */
  lemma StripSizeAtLeast(n: int)
    ensures StripSize(n) >= 2728
  {
  }

  /** Strip positions never decrease. */
  lemma {:induction false} StripPosMonotone(w: Window, p: int, i: nat, n: nat)
    requires i <= n
    decreases n
    ensures StripPos(w, p, i) + 2728 * (n - i) <= StripPos(w, p, n)
  {
    if i < n {
      StripPosMonotone(w, p, i, n - 1);
      StripPosStep(w, p, n - 1);
      StripSizeAtLeast(StripCountAt(w, StripPos(w, p, n - 1)));
    }
  }

  // ---------------------------------------------------------------------
  // The edger solution.
  // ---------------------------------------------------------------------

  /** The saw angle, the y position and the reject reason of an edger solution: 24 bytes from offset 32. */
  datatype EdgPlacement = EdgPlacement(angle: Float64, ypos: Float64, rejectReason: int)

  function EdgPlacementAt(w: Window, p: int): EdgPlacement
  {
    EdgPlacement(w.F64At(p), w.F64At(p + 8), w.U8At(p + 16))
  }

  method ReadEdgPlacement(r: ByteReader) returns (res: Result<EdgPlacement>)
    modifies r
    ensures res.Success? ==> r.win.Within(old(r.pos), 17)
    ensures res.Success? ==> r.pos == old(r.pos) + 24 && res.value == EdgPlacementAt(r.win, old(r.pos))
    ensures res.Failure? ==> !r.win.Within(old(r.pos), 17) && res.error.ReadPastEnd?
  {
    var angle :- r.ReadDouble();
    var ypos :- r.ReadDouble();
    var rejectReason :- r.ReadByte();
    r.IncOffset(7);
    res := Success(EdgPlacement(angle, ypos, rejectReason));
  }

  /** The head of an edger solution: its type, the three values and the placement, 56 bytes. */
  datatype EdgSolHead = EdgSolHead(solType: int, totVal: Float64, lumberVal: Float64, chipVal: Float64,
                                   placement: EdgPlacement)

  function EdgSolHeadAt(w: Window, p: int): EdgSolHead
  {
    var v := ThreeDoublesAt(w, p + 8);
    EdgSolHead(w.U8At(p), v.0, v.1, v.2, EdgPlacementAt(w, p + 32))
  }

  method ReadEdgSolHead(r: ByteReader) returns (res: Result<EdgSolHead>)
    modifies r
    ensures res.Success? ==> r.win.Within(old(r.pos), 49)
    ensures res.Success? ==> r.pos == old(r.pos) + 56 && res.value == EdgSolHeadAt(r.win, old(r.pos))
    ensures res.Failure? ==> !r.win.Within(old(r.pos), 49) && res.error.ReadPastEnd?
  {
    ghost var p := r.pos;
    var solType :- r.ReadByte();
    r.IncOffset(7);
    var v :- ReadThreeDoubles(r);
    assert r.pos == p + 32;
    var placement :- ReadEdgPlacement(r);
    assert v == ThreeDoublesAt(r.win, p + 8) && placement == EdgPlacementAt(r.win, p + 32);
    res := Success(EdgSolHead(solType, v.0, v.1, v.2, placement));
  }

  /** The strip count, the execution time and the arm count: 20 bytes. */
  datatype EdgSolCounts = EdgSolCounts(nStrips: int, executionTime: Float64, nrPosArms: int)

  function EdgSolCountsAt(w: Window, p: int): EdgSolCounts
  {
    EdgSolCounts(w.I32At(p), w.F64At(p + 8), w.I32At(p + 16))
  }

  method ReadEdgSolCounts(r: ByteReader) returns (res: Result<EdgSolCounts>)
    modifies r
    ensures res.Success? ==> r.win.Within(old(r.pos), 20)
    ensures res.Success? ==> r.pos == old(r.pos) + 20 && res.value == EdgSolCountsAt(r.win, old(r.pos))
    ensures res.Failure? ==> !r.win.Within(old(r.pos), 20) && res.error.ReadPastEnd?
  {
    var nStrips :- r.ReadInteger();
    r.IncOffset(4);
    var executionTime :- r.ReadDouble();
    var nrPosArms :- r.ReadInteger();
    res := Success(EdgSolCounts(nStrips, executionTime, nrPosArms));
  }

  /** Whether to trim before edging, the largest coordinate, the two trim positions and the offset: 20 bytes. */
  datatype EdgSolTrim = EdgSolTrim(doTrimBeforeEdging: bool, xMaxCoord: int, trimPos1: int, trimPos2: int, xoffset: int)

  function EdgSolTrimAt(w: Window, p: int): EdgSolTrim
  {
    EdgSolTrim(w.BoolAt(p), w.I32At(p + 4), w.I32At(p + 8), w.I32At(p + 12), w.I32At(p + 16))
  }

  method ReadEdgSolTrim(r: ByteReader) returns (res: Result<EdgSolTrim>)
    modifies r
    ensures res.Success? ==> r.win.Within(old(r.pos), 20)
    ensures res.Success? ==> r.pos == old(r.pos) + 20 && res.value == EdgSolTrimAt(r.win, old(r.pos))
    ensures res.Failure? ==> !r.win.Within(old(r.pos), 20) && res.error.ReadPastEnd?
  {
    var doTrim :- r.ReadBoolean();
    r.IncOffset(3);
    var xMaxCoord :- r.ReadInteger();
    var trimPos1 :- r.ReadInteger();
    var trimPos2 :- r.ReadInteger();
    var xoffset :- r.ReadInteger();
    res := Success(EdgSolTrim(doTrim, xMaxCoord, trimPos1, trimPos2, xoffset));
  }

  /** What follows the strips: the counts, the arms and the trimming settings; 136 bytes. */
  datatype EdgSolTail = EdgSolTail(counts: EdgSolCounts, posArms: seq<PosArm>, trim: EdgSolTrim)

  function EdgSolTailAt(w: Window, q: int): EdgSolTail
  {
    EdgSolTail(EdgSolCountsAt(w, q), PosArmsAt(w, q + 20), EdgSolTrimAt(w, q + 116))
  }

  method ReadEdgSolTail(r: ByteReader) returns (res: Result<EdgSolTail>)
    modifies r
    ensures res.Success? ==> r.win.Within(old(r.pos), 136)
    ensures res.Success? ==> r.pos == old(r.pos) + 136 && res.value == EdgSolTailAt(r.win, old(r.pos))
    ensures res.Failure? ==> res.error.ReadPastEnd?
  {
    ghost var q := r.pos;
    var c :- ReadEdgSolCounts(r);
    assert r.pos == q + 20;
    var arms :- ReadPosArms(r);
    assert r.pos == q + 116;
    var trim :- ReadEdgSolTrim(r);
    assert c == EdgSolCountsAt(r.win, q) && arms == PosArmsAt(r.win, q + 20) && trim == EdgSolTrimAt(r.win, q + 116);
    res := Success(EdgSolTail(c, arms, trim));
  }

  /** An edger solution. */
  datatype EdgSol = EdgSol(head: EdgSolHead, strips: seq<Strip>, tail: EdgSolTail)

  /** Where the block after the strips starts. */
  function EdgSolStripsEnd(w: Window, p: int): int
  {
    StripPos(w, p + 56, StripCount)
  }

  function EdgSolAt(w: Window, p: int): EdgSol
  {
    EdgSol(EdgSolHeadAt(w, p), StripsAt(w, p + 56, StripCount), EdgSolTailAt(w, EdgSolStripsEnd(w, p)))
  }

  /** The bytes the edger solution at `p` takes. */
  function EdgSolSize(w: Window, p: int): int
  {
    EdgSolStripsEnd(w, p) + 136 - p
  }

  /** readEdgSol. */
  method ReadEdgSol(r: ByteReader) returns (res: Result<EdgSol>)
    modifies r
    ensures res.Success? ==> res.value == EdgSolAt(r.win, old(r.pos))
    ensures res.Success? ==> r.pos == old(r.pos) + EdgSolSize(r.win, old(r.pos))
    ensures res.Failure? ==> res.error.ReadPastEnd?
  {
    ghost var p := r.pos;
    var head :- ReadEdgSolHead(r);
    assert r.pos == p + 56;
    var strips :- ReadStrips(r, StripCount);
    ghost var q := r.pos;
    assert q == EdgSolStripsEnd(r.win, p);
    var tail :- ReadEdgSolTail(r);
    assert head == EdgSolHeadAt(r.win, p) && tail == EdgSolTailAt(r.win, q);
    res := Success(EdgSol(head, strips, tail));
  }

  /** With no negative strip count, an edger solution takes 56 + 16 * 2728 + 136 = 43840 bytes. */
  lemma EdgSolSizeRegular(w: Window, p: int)
    requires NoNegativeCounts(w, p + 56, StripCount)
    ensures EdgSolSize(w, p) == 43840
  {
    StripPosRegular(w, p + 56, StripCount);
  }

  /** An edger solution takes at least 43840 bytes. */
  lemma EdgSolSizeAtLeast(w: Window, p: int)
    ensures EdgSolSize(w, p) >= 43840
  {
    StripPosMonotone(w, p + 56, 0, StripCount);
  }
}
