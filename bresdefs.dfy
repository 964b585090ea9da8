/**
 * The set helpers and the enumeration tables of bresDefs.js.
 *
 * The helpers work with JavaScript's 32-bit bitwise operators: both operands
 * are converted to 32-bit integers, `1 << e` uses e modulo 32, and the result
 * is a signed 32-bit number.
 */
module BresDefs {
  import opened Wrappers

  /** 2 to the power k. */
  function Pow2(k: nat): (p: nat)
    ensures p > 0
  {
    if k == 0 then 1 else 2 * Pow2(k - 1)
  }

  lemma Pow2Values()
    ensures Pow2(30) == 0x4000_0000 && Pow2(31) == 0x8000_0000 && Pow2(32) == 0x1_0000_0000
  {
    assert Pow2(1) == 0x2;
    assert Pow2(2) == 0x4;
    assert Pow2(3) == 0x8;
    assert Pow2(4) == 0x10;
    assert Pow2(5) == 0x20;
    assert Pow2(6) == 0x40;
    assert Pow2(7) == 0x80;
    assert Pow2(8) == 0x100;
    assert Pow2(9) == 0x200;
    assert Pow2(10) == 0x400;
    assert Pow2(11) == 0x800;
    assert Pow2(12) == 0x1000;
    assert Pow2(13) == 0x2000;
    assert Pow2(14) == 0x4000;
    assert Pow2(15) == 0x8000;
    assert Pow2(16) == 0x10000;
    assert Pow2(17) == 0x20000;
    assert Pow2(18) == 0x40000;
    assert Pow2(19) == 0x80000;
    assert Pow2(20) == 0x100000;
    assert Pow2(21) == 0x200000;
    assert Pow2(22) == 0x400000;
    assert Pow2(23) == 0x800000;
    assert Pow2(24) == 0x1000000;
    assert Pow2(25) == 0x2000000;
    assert Pow2(26) == 0x4000000;
    assert Pow2(27) == 0x8000000;
    assert Pow2(28) == 0x10000000;
    assert Pow2(29) == 0x20000000;
    assert Pow2(30) == 0x40000000;
    assert Pow2(31) == 0x80000000;
    assert Pow2(32) == 0x100000000;
  }

  lemma {:induction false} Pow2Monotone(j: nat, k: nat)
    requires j < k
    ensures Pow2(j) < Pow2(k)
  {
    if j + 1 < k {
      Pow2Monotone(j, k - 1);
    }
  }

  lemma Pow2Below32(k: nat)
    requires k < 32
    ensures Pow2(k) <= 0x8000_0000
  {
    Pow2Values();
    if k < 31 {
      Pow2Monotone(k, 31);
    }
  }

  /** Bit k of a natural number, counted from the least significant bit. */
  function Bit(u: nat, k: nat): bool
  {
    if k == 0 then u % 2 == 1 else Bit(u / 2, k - 1)
  }

  /** Bitwise OR of two natural numbers, bit by bit from the least significant one. */
  function BitOr(a: nat, b: nat): nat
    decreases a + b
  {
    if a == 0 && b == 0 then 0
    else 2 * BitOr(a / 2, b / 2) + (if a % 2 == 1 || b % 2 == 1 then 1 else 0)
  }

  /** Bitwise AND of two natural numbers. */
  function BitAnd(a: nat, b: nat): nat
    decreases a + b
  {
    if a == 0 || b == 0 then 0
    else 2 * BitAnd(a / 2, b / 2) + (if a % 2 == 1 && b % 2 == 1 then 1 else 0)
  }

  lemma {:induction false} BitOfOr(a: nat, b: nat, k: nat)
    ensures Bit(BitOr(a, b), k) == (Bit(a, k) || Bit(b, k))
    decreases k
  {
    if k > 0 && !(a == 0 && b == 0) {
      BitOfOr(a / 2, b / 2, k - 1);
    } else if k > 0 {
      BitOfZero(k);
    }
  }

  lemma {:induction false} BitOfZero(k: nat)
    ensures !Bit(0, k)
  {
    if k > 0 {
      BitOfZero(k - 1);
    }
  }

  lemma {:induction false} BitOfPow2(j: nat, k: nat)
    ensures Bit(Pow2(j), k) == (j == k)
  {
    if j > 0 && k > 0 {
      BitOfPow2(j - 1, k - 1);
    } else if j > 0 {
      assert Pow2(j) % 2 == 0;
    } else if k > 0 {
      BitOfZero(k - 1);
    }
  }

  /** ANDing with a single bit leaves that bit or nothing. */
  lemma {:induction false} AndPow2(k: nat, u: nat)
    ensures BitAnd(Pow2(k), u) == if Bit(u, k) then Pow2(k) else 0
  {
    if k > 0 && u != 0 {
      AndPow2(k - 1, u / 2);
      assert Pow2(k) / 2 == Pow2(k - 1);
    } else if k > 0 {
      BitOfZero(k);
    }
  }

  /** OR keeps a value below a power of two. */
  lemma {:induction false} OrBelow(a: nat, b: nat, n: nat)
    requires a < Pow2(n) && b < Pow2(n)
    ensures BitOr(a, b) < Pow2(n)
  {
    if n > 0 && !(a == 0 && b == 0) {
      OrBelow(a / 2, b / 2, n - 1);
    }
  }

  lemma {:induction false} OrAbsorbs(a: nat, b: nat)
    ensures BitOr(a, BitOr(a, b)) == BitOr(a, b)
    decreases a + b
  {
    if !(a == 0 && b == 0) {
      OrAbsorbs(a / 2, b / 2);
      assert BitOr(a, b) / 2 == BitOr(a / 2, b / 2);
      assert BitOr(a, b) % 2 == (if a % 2 == 1 || b % 2 == 1 then 1 else 0);
    }
  }

  /** JavaScript ToUint32: the 32-bit pattern a bitwise operator sees. */
  function Uint32Of(x: int): (u: nat)
    ensures u < 0x1_0000_0000
  {
    x % 0x1_0000_0000
  }

  /** The signed 32-bit number a bitwise operator returns for a pattern. */
  function Int32Of(u: nat): (v: int)
    requires u < 0x1_0000_0000
    ensures -0x8000_0000 <= v < 0x8000_0000
    ensures Uint32Of(v) == u
  {
    if u < 0x8000_0000 then u else u - 0x1_0000_0000
  }

  /** JavaScript `1 << e`, as a pattern: the shift count is e modulo 32. */
  function Shl1(e: int): (m: nat)
    ensures m < 0x1_0000_0000
  {
    Pow2Below32(e % 32);
    Pow2(e % 32)
  }

  /** `isInSet(setValue, enumValue)`: `((1 << enumValue) & setValue) > 0`. */
  function IsInSet(setValue: int, enumValue: int): bool
  {
    var m := BitAnd(Shl1(enumValue), Uint32Of(setValue));
    AndPow2(enumValue % 32, Uint32Of(setValue));
    Int32Of(m) > 0
  }

  /** `includeInSet(setValue, enumValue)`: `(1 << enumValue) | setValue`. */
  function IncludeInSet(setValue: int, enumValue: int): int
  {
    Pow2Values();
    OrBelow(Shl1(enumValue), Uint32Of(setValue), 32);
    Int32Of(BitOr(Shl1(enumValue), Uint32Of(setValue)))
  }

  /** For members 0..30 `isInSet` is the bit test on the 32-bit pattern; bit 31 is never reported. */
  lemma IsInSetIsBitTest(s: int, e: int)
    ensures IsInSet(s, e) <==> Bit(Uint32Of(s), e % 32) && e % 32 != 31
  {
    AndPow2(e % 32, Uint32Of(s));
    Pow2Values();
    if e % 32 < 31 {
      Pow2Monotone(e % 32, 31);
    }
  }

  lemma IncludedPattern(s: int, e: int)
    ensures Uint32Of(IncludeInSet(s, e)) == BitOr(Shl1(e), Uint32Of(s))
  {
    Pow2Values();
    OrBelow(Shl1(e), Uint32Of(s), 32);
  }

  lemma IsInSetAfterInclude(s: int, e: int)
    requires 0 <= e <= 30
    ensures IsInSet(IncludeInSet(s, e), e)
  {
    IsInSetIsBitTest(IncludeInSet(s, e), e);
    IncludedPattern(s, e);
    BitOfOr(Shl1(e), Uint32Of(s), e);
    BitOfPow2(e, e);
  }

  lemma IncludeKeepsOtherMembers(s: int, e: int, f: int)
    requires 0 <= e <= 30 && 0 <= f <= 30 && e != f
    ensures IsInSet(IncludeInSet(s, e), f) == IsInSet(s, f)
  {
    var t, m, u := IncludeInSet(s, e), Shl1(e), Uint32Of(s);
    assert e % 32 == e && f % 32 == f;
    IsInSetIsBitTest(t, f);
    IsInSetIsBitTest(s, f);
    IncludedPattern(s, e);
    BitOfOr(m, u, f);
    BitOfPow2(e, f);
    assert !Bit(m, f);
    assert Bit(Uint32Of(t), f) == Bit(u, f);
  }

  lemma IncludeIdempotent(s: int, e: int)
    ensures IncludeInSet(IncludeInSet(s, e), e) == IncludeInSet(s, e)
  {
    IncludedPattern(s, e);
    OrAbsorbs(Shl1(e), Uint32Of(s));
  }

  lemma EmptySetHasNoMember(e: int)
    ensures !IsInSet(0, e)
  {
    IsInSetIsBitTest(0, e);
    BitOfZero(e % 32);
  }

  /** The shift count wraps: member e + 32 sets and tests the same bit as member e. */
  lemma IncludeWrapsAt32(s: int, e: int)
    ensures IncludeInSet(s, e + 32) == IncludeInSet(s, e)
    ensures IsInSet(s, e + 32) == IsInSet(s, e)
  {
    assert (e + 32) % 32 == e % 32;
  }

  /** `(1 << 31) & s` is 0 or the negative number -2^31, never above 0. */
  lemma Member31NeverInSet(s: int)
    ensures !IsInSet(s, 31)
  {
    IsInSetIsBitTest(s, 31);
  }

  // ---------------------------------------------------------------------
  // Enumerations. Each `Value()` is the number the JavaScript object gives
  // the member.
  // ---------------------------------------------------------------------

  datatype DimUnit = duMM | duInch {
    function Value(): (v: nat)
      ensures v < 2
    {
      match this
      case duMM => 0
      case duInch => 1
    }
  }


  datatype SolType = solReject | solNormal | solTrim | solEdging | solUpsideDown {
    function Value(): (v: nat)
      ensures v < 5
    {
      match this
      case solReject => 0
      case solNormal => 1
      case solTrim => 2
      case solEdging => 3
      case solUpsideDown => 4
    }
  }


  /** The solution types the decoder treats as edging solutions: trim, edging and upside-down. */
  predicate IsEdgingSolType(solType: int)
  {
    solType == solTrim.Value() || solType == solEdging.Value() || solType == solUpsideDown.Value()
  }

  datatype OptSettings2 =
    | opt2_EGPA | opt2_ESAfterTrimmer | opt2_MoistNone | opt2_MoistSpyVal | opt2_ESBetter | opt2_ESWorse
    | opt2_3ScanDirs | opt2_1ScanDirs | opt2_FromEdger | opt2_RipInFour | opt2_ReservedForRipInFive
    | opt2_2ScanDirs
  {
    function Value(): (v: nat)
      ensures v < 12
    {
      match this
      case opt2_EGPA => 0
      case opt2_ESAfterTrimmer => 1
      case opt2_MoistNone => 2
      case opt2_MoistSpyVal => 3
      case opt2_ESBetter => 4
      case opt2_ESWorse => 5
      case opt2_3ScanDirs => 6
      case opt2_1ScanDirs => 7
      case opt2_FromEdger => 8
      case opt2_RipInFour => 9
      case opt2_ReservedForRipInFive => 10
      case opt2_2ScanDirs => 11
    }
  }


  datatype MainDefect =
    | dtKnot | dtSplit | dtBark | dtPitch | dtRot | dtBlueStain | dtInsectHole | dtColor | dtSkip
    | dtRedStain | dtSpeck | dtMark | dtRoughness | dtMachineBite | dtSlopeOfGrain | dtSawCut
    | dtGrubHole | dtGrainDistance | dtPith | dtWEPitch | dtEdgeBite | dtMold | dtBirdEye | dtSawStep
    | dtClearWood | dtNoMainDefect | dtDirt | dtText | dtNearPith | dtTopBreak | dtRotFSN | dtGhostFSN
  {
    function Value(): (v: nat)
      ensures v < 32
    {
      match this
      case dtKnot => 0
      case dtSplit => 1
      case dtBark => 2
      case dtPitch => 3
      case dtRot => 4
      case dtBlueStain => 5
      case dtInsectHole => 6
      case dtColor => 7
      case dtSkip => 8
      case dtRedStain => 9
      case dtSpeck => 10
      case dtMark => 11
      case dtRoughness => 12
      case dtMachineBite => 13
      case dtSlopeOfGrain => 14
      case dtSawCut => 15
      case dtGrubHole => 16
      case dtGrainDistance => 17
      case dtPith => 18
      case dtWEPitch => 19
      case dtEdgeBite => 20
      case dtMold => 21
      case dtBirdEye => 22
      case dtSawStep => 23
      case dtClearWood => 24
      case dtNoMainDefect => 25
      case dtDirt => 26
      case dtText => 27
      case dtNearPith => 28
      case dtTopBreak => 29
      case dtRotFSN => 30
      case dtGhostFSN => 31
    }
  }


  datatype SubDefect =
    | dtSound | dtDead | dtKnotHole | dtBarkKnot | dtFirmRot | dtSoftRot | dtBlack | dtWhite | dtRed
    | dtGreen | dtBlue | dtYellow | dtPurple | dtLight | dtMedium | dtHeavy | dtStreak | dtCheckKnot
    | dtSurfingFibre | dtDivingFiber | dtNoSubDefect
  {
    function Value(): (v: nat)
      ensures v < 21
    {
      match this
      case dtSound => 0
      case dtDead => 1
      case dtKnotHole => 2
      case dtBarkKnot => 3
      case dtFirmRot => 4
      case dtSoftRot => 5
      case dtBlack => 6
      case dtWhite => 7
      case dtRed => 8
      case dtGreen => 9
      case dtBlue => 10
      case dtYellow => 11
      case dtPurple => 12
      case dtLight => 13
      case dtMedium => 14
      case dtHeavy => 15
      case dtStreak => 16
      case dtCheckKnot => 17
      case dtSurfingFibre => 18
      case dtDivingFiber => 19
      case dtNoSubDefect => 20
    }
  }


  datatype GradingInterval =
    | griXLim_Dim | griXLim_Skip | griXLim_MSR | griXLim_MC | griXLim_AltQ | griXLim_AnnualRings
    | griXLim_7 | griXLim_8 | griWane_Scand | griWane_NA | griWane_3 | griWane_4 | griWane_5
    | griWane_6 | griWane_7 | griWane_8 | griKnot_Scand | griKnot_NAdim | griKnot_NAapp
    | griKnot_EndZone | griKnot_SKR | griKnot_6 | griKnot_7 | griKnot_8 | griPitch | griBark
    | griSplit | griShakeSlope | griEdgeShake | griShake_6 | griShake_7 | griShake_8
    | griBluestainFace | griBluestainEdge | griRedstainFace | griRedstainEdge | griRotFace
    | griRotEdge | griEndRot | griSpeckFace | griSpeckEdge | griPinWorms | griSlopeGrain
    | griMachineBite | griSawcut | griSawStep | griSapwood | griEndBlue | griWarp | griPith
    | griMoldFace | griFreckles | griDarkRot | griHeavyBluestain | griTopBreak
  {
    function Value(): (v: nat)
      ensures v < 55
    {
      match this
      case griXLim_Dim => 0
      case griXLim_Skip => 1
      case griXLim_MSR => 2
      case griXLim_MC => 3
      case griXLim_AltQ => 4
      case griXLim_AnnualRings => 5
      case griXLim_7 => 6
      case griXLim_8 => 7
      case griWane_Scand => 8
      case griWane_NA => 9
      case griWane_3 => 10
      case griWane_4 => 11
      case griWane_5 => 12
      case griWane_6 => 13
      case griWane_7 => 14
      case griWane_8 => 15
      case griKnot_Scand => 16
      case griKnot_NAdim => 17
      case griKnot_NAapp => 18
      case griKnot_EndZone => 19
      case griKnot_SKR => 20
      case griKnot_6 => 21
      case griKnot_7 => 22
      case griKnot_8 => 23
      case griPitch => 24
      case griBark => 25
      case griSplit => 26
      case griShakeSlope => 27
      case griEdgeShake => 28
      case griShake_6 => 29
      case griShake_7 => 30
      case griShake_8 => 31
      case griBluestainFace => 32
      case griBluestainEdge => 33
      case griRedstainFace => 34
      case griRedstainEdge => 35
      case griRotFace => 36
      case griRotEdge => 37
      case griEndRot => 38
      case griSpeckFace => 39
      case griSpeckEdge => 40
      case griPinWorms => 41
      case griSlopeGrain => 42
      case griMachineBite => 43
      case griSawcut => 44
      case griSawStep => 45
      case griSapwood => 46
      case griEndBlue => 47
      case griWarp => 48
      case griPith => 49
      case griMoldFace => 50
      case griFreckles => 51
      case griDarkRot => 52
      case griHeavyBluestain => 53
      case griTopBreak => 54
    }
  }

  // The inverse of each `Value()`: the member a number names, if any. The
  // larger tables are looked up eight values at a time.

  function DimUnitOf(v: int): Option<DimUnit>
  {
    match v
    case 0 => Some(duMM)
    case 1 => Some(duInch)
    case _ => None
  }

  /** Each member of DimUnit is named back by its own value, so no two members share one. */
  lemma DimUnitValuesDistinct()
    ensures forall x: DimUnit :: DimUnitOf(x.Value()) == Some(x)
  {
    forall x: DimUnit ensures DimUnitOf(x.Value()) == Some(x) {
      match x {
        case duMM =>
        case duInch =>
      }
    }
  }

  /** The values of DimUnit are exactly 0..1. */
  lemma DimUnitValuesConsecutive()
    ensures forall v :: 0 <= v < 2 ==> DimUnitOf(v).Some? && DimUnitOf(v).value.Value() == v
    ensures forall v :: v < 0 || v >= 2 ==> DimUnitOf(v) == None
  {
    forall v | 0 <= v < 2 ensures DimUnitOf(v).Some? && DimUnitOf(v).value.Value() == v {
      match v {
        case 0 => case 1 =>
      }
    }
  }

  function SolTypeOf(v: int): Option<SolType>
  {
    match v
    case 0 => Some(solReject)
    case 1 => Some(solNormal)
    case 2 => Some(solTrim)
    case 3 => Some(solEdging)
    case 4 => Some(solUpsideDown)
    case _ => None
  }

  /** Each member of SolType is named back by its own value, so no two members share one. */
  lemma SolTypeValuesDistinct()
    ensures forall x: SolType :: SolTypeOf(x.Value()) == Some(x)
  {
    forall x: SolType ensures SolTypeOf(x.Value()) == Some(x) {
      match x {
        case solReject =>
        case solNormal =>
        case solTrim =>
        case solEdging =>
        case solUpsideDown =>
      }
    }
  }

  /** The values of SolType are exactly 0..4. */
  lemma SolTypeValuesConsecutive()
    ensures forall v :: 0 <= v < 5 ==> SolTypeOf(v).Some? && SolTypeOf(v).value.Value() == v
    ensures forall v :: v < 0 || v >= 5 ==> SolTypeOf(v) == None
  {
    forall v | 0 <= v < 5 ensures SolTypeOf(v).Some? && SolTypeOf(v).value.Value() == v {
      match v {
        case 0 => case 1 => case 2 => case 3 => case 4 =>
      }
    }
  }

  function OptSettings2Of(v: int): Option<OptSettings2>
  {
    if v < 0 || v >= 12 then None
    else if v < 8 then Some(match v
      case 0 => opt2_EGPA
      case 1 => opt2_ESAfterTrimmer
      case 2 => opt2_MoistNone
      case 3 => opt2_MoistSpyVal
      case 4 => opt2_ESBetter
      case 5 => opt2_ESWorse
      case 6 => opt2_3ScanDirs
      case 7 => opt2_1ScanDirs)
    else Some(match v
      case 8 => opt2_FromEdger
      case 9 => opt2_RipInFour
      case 10 => opt2_ReservedForRipInFive
      case 11 => opt2_2ScanDirs)
  }

  /** Each member of OptSettings2 is named back by its own value, so no two members share one. */
  lemma OptSettings2ValuesDistinct()
    ensures forall x: OptSettings2 :: OptSettings2Of(x.Value()) == Some(x)
  {
    forall x: OptSettings2 ensures OptSettings2Of(x.Value()) == Some(x) {
      match x {
        case opt2_EGPA =>
        case opt2_ESAfterTrimmer =>
        case opt2_MoistNone =>
        case opt2_MoistSpyVal =>
        case opt2_ESBetter =>
        case opt2_ESWorse =>
        case opt2_3ScanDirs =>
        case opt2_1ScanDirs =>
        case opt2_FromEdger =>
        case opt2_RipInFour =>
        case opt2_ReservedForRipInFive =>
        case opt2_2ScanDirs =>
      }
    }
  }

  lemma OptSettings2ValuesFrom0()
    ensures forall v :: 0 <= v < 4 ==> OptSettings2Of(v).Some? && OptSettings2Of(v).value.Value() == v
  {
    forall v | 0 <= v < 4 ensures OptSettings2Of(v).Some? && OptSettings2Of(v).value.Value() == v {
      match v {
        case 0 => case 1 => case 2 => case 3 =>
      }
    }
  }

  lemma OptSettings2ValuesFrom4()
    ensures forall v :: 4 <= v < 8 ==> OptSettings2Of(v).Some? && OptSettings2Of(v).value.Value() == v
  {
    forall v | 4 <= v < 8 ensures OptSettings2Of(v).Some? && OptSettings2Of(v).value.Value() == v {
      match v {
        case 4 => case 5 => case 6 => case 7 =>
      }
    }
  }

  lemma OptSettings2ValuesFrom8()
    ensures forall v :: 8 <= v < 12 ==> OptSettings2Of(v).Some? && OptSettings2Of(v).value.Value() == v
  {
    forall v | 8 <= v < 12 ensures OptSettings2Of(v).Some? && OptSettings2Of(v).value.Value() == v {
      match v {
        case 8 => case 9 => case 10 => case 11 =>
      }
    }
  }

  /** The values of OptSettings2 are exactly 0..11. */
  lemma OptSettings2ValuesConsecutive()
    ensures forall v :: 0 <= v < 12 ==> OptSettings2Of(v).Some? && OptSettings2Of(v).value.Value() == v
    ensures forall v :: v < 0 || v >= 12 ==> OptSettings2Of(v) == None
  {
    OptSettings2ValuesFrom0();
    OptSettings2ValuesFrom4();
    OptSettings2ValuesFrom8();
  }

  function MainDefectOf(v: int): Option<MainDefect>
  {
    if v < 0 || v >= 32 then None
    else if v < 8 then Some(match v
      case 0 => dtKnot
      case 1 => dtSplit
      case 2 => dtBark
      case 3 => dtPitch
      case 4 => dtRot
      case 5 => dtBlueStain
      case 6 => dtInsectHole
      case 7 => dtColor)
    else if v < 16 then Some(match v
      case 8 => dtSkip
      case 9 => dtRedStain
      case 10 => dtSpeck
      case 11 => dtMark
      case 12 => dtRoughness
      case 13 => dtMachineBite
      case 14 => dtSlopeOfGrain
      case 15 => dtSawCut)
    else if v < 24 then Some(match v
      case 16 => dtGrubHole
      case 17 => dtGrainDistance
      case 18 => dtPith
      case 19 => dtWEPitch
      case 20 => dtEdgeBite
      case 21 => dtMold
      case 22 => dtBirdEye
      case 23 => dtSawStep)
    else Some(match v
      case 24 => dtClearWood
      case 25 => dtNoMainDefect
      case 26 => dtDirt
      case 27 => dtText
      case 28 => dtNearPith
      case 29 => dtTopBreak
      case 30 => dtRotFSN
      case 31 => dtGhostFSN)
  }

  /** Each member of MainDefect is named back by its own value, so no two members share one. */
  lemma MainDefectValuesDistinct()
    ensures forall x: MainDefect :: MainDefectOf(x.Value()) == Some(x)
  {
    forall x: MainDefect ensures MainDefectOf(x.Value()) == Some(x) {
      match x {
        case dtKnot =>
        case dtSplit =>
        case dtBark =>
        case dtPitch =>
        case dtRot =>
        case dtBlueStain =>
        case dtInsectHole =>
        case dtColor =>
        case dtSkip =>
        case dtRedStain =>
        case dtSpeck =>
        case dtMark =>
        case dtRoughness =>
        case dtMachineBite =>
        case dtSlopeOfGrain =>
        case dtSawCut =>
        case dtGrubHole =>
        case dtGrainDistance =>
        case dtPith =>
        case dtWEPitch =>
        case dtEdgeBite =>
        case dtMold =>
        case dtBirdEye =>
        case dtSawStep =>
        case dtClearWood =>
        case dtNoMainDefect =>
        case dtDirt =>
        case dtText =>
        case dtNearPith =>
        case dtTopBreak =>
        case dtRotFSN =>
        case dtGhostFSN =>
      }
    }
  }

  lemma MainDefectValuesFrom0()
    ensures forall v :: 0 <= v < 4 ==> MainDefectOf(v).Some? && MainDefectOf(v).value.Value() == v
  {
    forall v | 0 <= v < 4 ensures MainDefectOf(v).Some? && MainDefectOf(v).value.Value() == v {
      match v {
        case 0 => case 1 => case 2 => case 3 =>
      }
    }
  }

  lemma MainDefectValuesFrom4()
    ensures forall v :: 4 <= v < 8 ==> MainDefectOf(v).Some? && MainDefectOf(v).value.Value() == v
  {
    forall v | 4 <= v < 8 ensures MainDefectOf(v).Some? && MainDefectOf(v).value.Value() == v {
      match v {
        case 4 => case 5 => case 6 => case 7 =>
      }
    }
  }

  lemma MainDefectValuesFrom8()
    ensures forall v :: 8 <= v < 12 ==> MainDefectOf(v).Some? && MainDefectOf(v).value.Value() == v
  {
    forall v | 8 <= v < 12 ensures MainDefectOf(v).Some? && MainDefectOf(v).value.Value() == v {
      match v {
        case 8 => case 9 => case 10 => case 11 =>
      }
    }
  }

  lemma MainDefectValuesFrom12()
    ensures forall v :: 12 <= v < 16 ==> MainDefectOf(v).Some? && MainDefectOf(v).value.Value() == v
  {
    forall v | 12 <= v < 16 ensures MainDefectOf(v).Some? && MainDefectOf(v).value.Value() == v {
      match v {
        case 12 => case 13 => case 14 => case 15 =>
      }
    }
  }

  lemma MainDefectValuesFrom16()
    ensures forall v :: 16 <= v < 20 ==> MainDefectOf(v).Some? && MainDefectOf(v).value.Value() == v
  {
    forall v | 16 <= v < 20 ensures MainDefectOf(v).Some? && MainDefectOf(v).value.Value() == v {
      match v {
        case 16 => case 17 => case 18 => case 19 =>
      }
    }
  }

  lemma MainDefectValuesFrom20()
    ensures forall v :: 20 <= v < 24 ==> MainDefectOf(v).Some? && MainDefectOf(v).value.Value() == v
  {
    forall v | 20 <= v < 24 ensures MainDefectOf(v).Some? && MainDefectOf(v).value.Value() == v {
      match v {
        case 20 => case 21 => case 22 => case 23 =>
      }
    }
  }

  lemma MainDefectValuesFrom24()
    ensures forall v :: 24 <= v < 28 ==> MainDefectOf(v).Some? && MainDefectOf(v).value.Value() == v
  {
    forall v | 24 <= v < 28 ensures MainDefectOf(v).Some? && MainDefectOf(v).value.Value() == v {
      match v {
        case 24 => case 25 => case 26 => case 27 =>
      }
    }
  }

  lemma MainDefectValuesFrom28()
    ensures forall v :: 28 <= v < 32 ==> MainDefectOf(v).Some? && MainDefectOf(v).value.Value() == v
  {
    forall v | 28 <= v < 32 ensures MainDefectOf(v).Some? && MainDefectOf(v).value.Value() == v {
      match v {
        case 28 => case 29 => case 30 => case 31 =>
      }
    }
  }

  /** The values of MainDefect are exactly 0..31. */
  lemma MainDefectValuesConsecutive()
    ensures forall v :: 0 <= v < 32 ==> MainDefectOf(v).Some? && MainDefectOf(v).value.Value() == v
    ensures forall v :: v < 0 || v >= 32 ==> MainDefectOf(v) == None
  {
    MainDefectValuesFrom0();
    MainDefectValuesFrom4();
    MainDefectValuesFrom8();
    MainDefectValuesFrom12();
    MainDefectValuesFrom16();
    MainDefectValuesFrom20();
    MainDefectValuesFrom24();
    MainDefectValuesFrom28();
  }

  function SubDefectOf(v: int): Option<SubDefect>
  {
    if v < 0 || v >= 21 then None
    else if v < 8 then Some(match v
      case 0 => dtSound
      case 1 => dtDead
      case 2 => dtKnotHole
      case 3 => dtBarkKnot
      case 4 => dtFirmRot
      case 5 => dtSoftRot
      case 6 => dtBlack
      case 7 => dtWhite)
    else if v < 16 then Some(match v
      case 8 => dtRed
      case 9 => dtGreen
      case 10 => dtBlue
      case 11 => dtYellow
      case 12 => dtPurple
      case 13 => dtLight
      case 14 => dtMedium
      case 15 => dtHeavy)
    else Some(match v
      case 16 => dtStreak
      case 17 => dtCheckKnot
      case 18 => dtSurfingFibre
      case 19 => dtDivingFiber
      case 20 => dtNoSubDefect)
  }

  /** Each member of SubDefect is named back by its own value, so no two members share one. */
  lemma SubDefectValuesDistinct()
    ensures forall x: SubDefect :: SubDefectOf(x.Value()) == Some(x)
  {
    forall x: SubDefect ensures SubDefectOf(x.Value()) == Some(x) {
      match x {
        case dtSound =>
        case dtDead =>
        case dtKnotHole =>
        case dtBarkKnot =>
        case dtFirmRot =>
        case dtSoftRot =>
        case dtBlack =>
        case dtWhite =>
        case dtRed =>
        case dtGreen =>
        case dtBlue =>
        case dtYellow =>
        case dtPurple =>
        case dtLight =>
        case dtMedium =>
        case dtHeavy =>
        case dtStreak =>
        case dtCheckKnot =>
        case dtSurfingFibre =>
        case dtDivingFiber =>
        case dtNoSubDefect =>
      }
    }
  }

  lemma SubDefectValuesFrom0()
    ensures forall v :: 0 <= v < 4 ==> SubDefectOf(v).Some? && SubDefectOf(v).value.Value() == v
  {
    forall v | 0 <= v < 4 ensures SubDefectOf(v).Some? && SubDefectOf(v).value.Value() == v {
      match v {
        case 0 => case 1 => case 2 => case 3 =>
      }
    }
  }

  lemma SubDefectValuesFrom4()
    ensures forall v :: 4 <= v < 8 ==> SubDefectOf(v).Some? && SubDefectOf(v).value.Value() == v
  {
    forall v | 4 <= v < 8 ensures SubDefectOf(v).Some? && SubDefectOf(v).value.Value() == v {
      match v {
        case 4 => case 5 => case 6 => case 7 =>
      }
    }
  }

  lemma SubDefectValuesFrom8()
    ensures forall v :: 8 <= v < 12 ==> SubDefectOf(v).Some? && SubDefectOf(v).value.Value() == v
  {
    forall v | 8 <= v < 12 ensures SubDefectOf(v).Some? && SubDefectOf(v).value.Value() == v {
      match v {
        case 8 => case 9 => case 10 => case 11 =>
      }
    }
  }

  lemma SubDefectValuesFrom12()
    ensures forall v :: 12 <= v < 16 ==> SubDefectOf(v).Some? && SubDefectOf(v).value.Value() == v
  {
    forall v | 12 <= v < 16 ensures SubDefectOf(v).Some? && SubDefectOf(v).value.Value() == v {
      match v {
        case 12 => case 13 => case 14 => case 15 =>
      }
    }
  }

  lemma SubDefectValuesFrom16()
    ensures forall v :: 16 <= v < 20 ==> SubDefectOf(v).Some? && SubDefectOf(v).value.Value() == v
  {
    forall v | 16 <= v < 20 ensures SubDefectOf(v).Some? && SubDefectOf(v).value.Value() == v {
      match v {
        case 16 => case 17 => case 18 => case 19 =>
      }
    }
  }

  lemma SubDefectValuesFrom20()
    ensures forall v :: 20 <= v < 21 ==> SubDefectOf(v).Some? && SubDefectOf(v).value.Value() == v
  {
    forall v | 20 <= v < 21 ensures SubDefectOf(v).Some? && SubDefectOf(v).value.Value() == v {
      match v {
        case 20 =>
      }
    }
  }

  /** The values of SubDefect are exactly 0..20. */
  lemma SubDefectValuesConsecutive()
    ensures forall v :: 0 <= v < 21 ==> SubDefectOf(v).Some? && SubDefectOf(v).value.Value() == v
    ensures forall v :: v < 0 || v >= 21 ==> SubDefectOf(v) == None
  {
    SubDefectValuesFrom0();
    SubDefectValuesFrom4();
    SubDefectValuesFrom8();
    SubDefectValuesFrom12();
    SubDefectValuesFrom16();
    SubDefectValuesFrom20();
  }

  function GradingIntervalOf(v: int): Option<GradingInterval>
  {
    if v < 0 || v >= 55 then None
    else if v < 8 then Some(match v
      case 0 => griXLim_Dim
      case 1 => griXLim_Skip
      case 2 => griXLim_MSR
      case 3 => griXLim_MC
      case 4 => griXLim_AltQ
      case 5 => griXLim_AnnualRings
      case 6 => griXLim_7
      case 7 => griXLim_8)
    else if v < 16 then Some(match v
      case 8 => griWane_Scand
      case 9 => griWane_NA
      case 10 => griWane_3
      case 11 => griWane_4
      case 12 => griWane_5
      case 13 => griWane_6
      case 14 => griWane_7
      case 15 => griWane_8)
    else if v < 24 then Some(match v
      case 16 => griKnot_Scand
      case 17 => griKnot_NAdim
      case 18 => griKnot_NAapp
      case 19 => griKnot_EndZone
      case 20 => griKnot_SKR
      case 21 => griKnot_6
      case 22 => griKnot_7
      case 23 => griKnot_8)
    else if v < 32 then Some(match v
      case 24 => griPitch
      case 25 => griBark
      case 26 => griSplit
      case 27 => griShakeSlope
      case 28 => griEdgeShake
      case 29 => griShake_6
      case 30 => griShake_7
      case 31 => griShake_8)
    else if v < 40 then Some(match v
      case 32 => griBluestainFace
      case 33 => griBluestainEdge
      case 34 => griRedstainFace
      case 35 => griRedstainEdge
      case 36 => griRotFace
      case 37 => griRotEdge
      case 38 => griEndRot
      case 39 => griSpeckFace)
    else if v < 48 then Some(match v
      case 40 => griSpeckEdge
      case 41 => griPinWorms
      case 42 => griSlopeGrain
      case 43 => griMachineBite
      case 44 => griSawcut
      case 45 => griSawStep
      case 46 => griSapwood
      case 47 => griEndBlue)
    else Some(match v
      case 48 => griWarp
      case 49 => griPith
      case 50 => griMoldFace
      case 51 => griFreckles
      case 52 => griDarkRot
      case 53 => griHeavyBluestain
      case 54 => griTopBreak)
  }

  /** Each member of GradingInterval is named back by its own value, so no two members share one. */
  lemma GradingIntervalValuesDistinct()
    ensures forall x: GradingInterval :: GradingIntervalOf(x.Value()) == Some(x)
  {
    forall x: GradingInterval ensures GradingIntervalOf(x.Value()) == Some(x) {
      match x {
        case griXLim_Dim =>
        case griXLim_Skip =>
        case griXLim_MSR =>
        case griXLim_MC =>
        case griXLim_AltQ =>
        case griXLim_AnnualRings =>
        case griXLim_7 =>
        case griXLim_8 =>
        case griWane_Scand =>
        case griWane_NA =>
        case griWane_3 =>
        case griWane_4 =>
        case griWane_5 =>
        case griWane_6 =>
        case griWane_7 =>
        case griWane_8 =>
        case griKnot_Scand =>
        case griKnot_NAdim =>
        case griKnot_NAapp =>
        case griKnot_EndZone =>
        case griKnot_SKR =>
        case griKnot_6 =>
        case griKnot_7 =>
        case griKnot_8 =>
        case griPitch =>
        case griBark =>
        case griSplit =>
        case griShakeSlope =>
        case griEdgeShake =>
        case griShake_6 =>
        case griShake_7 =>
        case griShake_8 =>
        case griBluestainFace =>
        case griBluestainEdge =>
        case griRedstainFace =>
        case griRedstainEdge =>
        case griRotFace =>
        case griRotEdge =>
        case griEndRot =>
        case griSpeckFace =>
        case griSpeckEdge =>
        case griPinWorms =>
        case griSlopeGrain =>
        case griMachineBite =>
        case griSawcut =>
        case griSawStep =>
        case griSapwood =>
        case griEndBlue =>
        case griWarp =>
        case griPith =>
        case griMoldFace =>
        case griFreckles =>
        case griDarkRot =>
        case griHeavyBluestain =>
        case griTopBreak =>
      }
    }
  }

  lemma GradingIntervalValuesFrom0()
    ensures forall v :: 0 <= v < 4 ==> GradingIntervalOf(v).Some? && GradingIntervalOf(v).value.Value() == v
  {
    forall v | 0 <= v < 4 ensures GradingIntervalOf(v).Some? && GradingIntervalOf(v).value.Value() == v {
      match v {
        case 0 => case 1 => case 2 => case 3 =>
      }
    }
  }

  lemma GradingIntervalValuesFrom4()
    ensures forall v :: 4 <= v < 8 ==> GradingIntervalOf(v).Some? && GradingIntervalOf(v).value.Value() == v
  {
    forall v | 4 <= v < 8 ensures GradingIntervalOf(v).Some? && GradingIntervalOf(v).value.Value() == v {
      match v {
        case 4 => case 5 => case 6 => case 7 =>
      }
    }
  }

  lemma GradingIntervalValuesFrom8()
    ensures forall v :: 8 <= v < 12 ==> GradingIntervalOf(v).Some? && GradingIntervalOf(v).value.Value() == v
  {
    forall v | 8 <= v < 12 ensures GradingIntervalOf(v).Some? && GradingIntervalOf(v).value.Value() == v {
      match v {
        case 8 => case 9 => case 10 => case 11 =>
      }
    }
  }

  lemma GradingIntervalValuesFrom12()
    ensures forall v :: 12 <= v < 16 ==> GradingIntervalOf(v).Some? && GradingIntervalOf(v).value.Value() == v
  {
    forall v | 12 <= v < 16 ensures GradingIntervalOf(v).Some? && GradingIntervalOf(v).value.Value() == v {
      match v {
        case 12 => case 13 => case 14 => case 15 =>
      }
    }
  }

  lemma GradingIntervalValuesFrom16()
    ensures forall v :: 16 <= v < 20 ==> GradingIntervalOf(v).Some? && GradingIntervalOf(v).value.Value() == v
  {
    forall v | 16 <= v < 20 ensures GradingIntervalOf(v).Some? && GradingIntervalOf(v).value.Value() == v {
      match v {
        case 16 => case 17 => case 18 => case 19 =>
      }
    }
  }

  lemma GradingIntervalValuesFrom20()
    ensures forall v :: 20 <= v < 24 ==> GradingIntervalOf(v).Some? && GradingIntervalOf(v).value.Value() == v
  {
    forall v | 20 <= v < 24 ensures GradingIntervalOf(v).Some? && GradingIntervalOf(v).value.Value() == v {
      match v {
        case 20 => case 21 => case 22 => case 23 =>
      }
    }
  }

  lemma GradingIntervalValuesFrom24()
    ensures forall v :: 24 <= v < 28 ==> GradingIntervalOf(v).Some? && GradingIntervalOf(v).value.Value() == v
  {
    forall v | 24 <= v < 28 ensures GradingIntervalOf(v).Some? && GradingIntervalOf(v).value.Value() == v {
      match v {
        case 24 => case 25 => case 26 => case 27 =>
      }
    }
  }

  lemma GradingIntervalValuesFrom28()
    ensures forall v :: 28 <= v < 32 ==> GradingIntervalOf(v).Some? && GradingIntervalOf(v).value.Value() == v
  {
    forall v | 28 <= v < 32 ensures GradingIntervalOf(v).Some? && GradingIntervalOf(v).value.Value() == v {
      match v {
        case 28 => case 29 => case 30 => case 31 =>
      }
    }
  }

  lemma GradingIntervalValuesFrom32()
    ensures forall v :: 32 <= v < 36 ==> GradingIntervalOf(v).Some? && GradingIntervalOf(v).value.Value() == v
  {
    forall v | 32 <= v < 36 ensures GradingIntervalOf(v).Some? && GradingIntervalOf(v).value.Value() == v {
      match v {
        case 32 => case 33 => case 34 => case 35 =>
      }
    }
  }

  lemma GradingIntervalValuesFrom36()
    ensures forall v :: 36 <= v < 40 ==> GradingIntervalOf(v).Some? && GradingIntervalOf(v).value.Value() == v
  {
    forall v | 36 <= v < 40 ensures GradingIntervalOf(v).Some? && GradingIntervalOf(v).value.Value() == v {
      match v {
        case 36 => case 37 => case 38 => case 39 =>
      }
    }
  }

  lemma GradingIntervalValuesFrom40()
    ensures forall v :: 40 <= v < 44 ==> GradingIntervalOf(v).Some? && GradingIntervalOf(v).value.Value() == v
  {
    forall v | 40 <= v < 44 ensures GradingIntervalOf(v).Some? && GradingIntervalOf(v).value.Value() == v {
      match v {
        case 40 => case 41 => case 42 => case 43 =>
      }
    }
  }

  lemma GradingIntervalValuesFrom44()
    ensures forall v :: 44 <= v < 48 ==> GradingIntervalOf(v).Some? && GradingIntervalOf(v).value.Value() == v
  {
    forall v | 44 <= v < 48 ensures GradingIntervalOf(v).Some? && GradingIntervalOf(v).value.Value() == v {
      match v {
        case 44 => case 45 => case 46 => case 47 =>
      }
    }
  }

  lemma GradingIntervalValuesFrom48()
    ensures forall v :: 48 <= v < 52 ==> GradingIntervalOf(v).Some? && GradingIntervalOf(v).value.Value() == v
  {
    forall v | 48 <= v < 52 ensures GradingIntervalOf(v).Some? && GradingIntervalOf(v).value.Value() == v {
      match v {
        case 48 => case 49 => case 50 => case 51 =>
      }
    }
  }

  lemma GradingIntervalValuesFrom52()
    ensures forall v :: 52 <= v < 55 ==> GradingIntervalOf(v).Some? && GradingIntervalOf(v).value.Value() == v
  {
    forall v | 52 <= v < 55 ensures GradingIntervalOf(v).Some? && GradingIntervalOf(v).value.Value() == v {
      match v {
        case 52 => case 53 => case 54 =>
      }
    }
  }

  /** The values of GradingInterval are exactly 0..54. */
  lemma GradingIntervalValuesConsecutive()
    ensures forall v :: 0 <= v < 55 ==> GradingIntervalOf(v).Some? && GradingIntervalOf(v).value.Value() == v
    ensures forall v :: v < 0 || v >= 55 ==> GradingIntervalOf(v) == None
  {
    GradingIntervalValuesFrom0();
    GradingIntervalValuesFrom4();
    GradingIntervalValuesFrom8();
    GradingIntervalValuesFrom12();
    GradingIntervalValuesFrom16();
    GradingIntervalValuesFrom20();
    GradingIntervalValuesFrom24();
    GradingIntervalValuesFrom28();
    GradingIntervalValuesFrom32();
    GradingIntervalValuesFrom36();
    GradingIntervalValuesFrom40();
    GradingIntervalValuesFrom44();
    GradingIntervalValuesFrom48();
    GradingIntervalValuesFrom52();
  }
}
