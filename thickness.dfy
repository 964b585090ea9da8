/**
 * The thickness heads of a board record (ReadThicknData): the per-head
 * records, whose layout grows with the revision, and the conversion of the
 * legacy error bits to the current ones.
 */
module Thickness {
  import opened Wrappers
  import opened Bytes
  import opened Reader
  import opened Arrays
  import opened BresDefs
  import opened Revision

  /** The fields of revision 49 onwards, with the values older files leave. */
  datatype ThicknExtras = ThicknExtras(
    thickness2: int, thickness3: int, validUp: Num, validLow: Num,
    brdWidthUp: int, brdWidthLo: int, isTemperature: bool)

  datatype ThicknHead = ThicknHead(
    thId: int, thickness: int, profilePoints: seq<Point>, cupUp: int, cupLow: int,
    errorCode: nat, thDataCounter: nat, extras: ThicknExtras)

  /** From revision 132 the file always holds four heads, whatever their declared number. */
  function HeadCount(rev: int, nrHeads: int): int { if rev >= 132 then 4 else nrHeads }

  /** 40 profile points from revision 49, 10 before. */
  function ProfileCount(rev: int): nat { if rev > 48 then 40 else 10 }

  /** The widths and the temperature flag exist from revision 132 (legacy) and 517 (current). */
  predicate HasBoardWidths(rev: int) { GateAtLeast(rev, 132, 517) }

  /** Where the bytes after the status block start: identifiers, profile, cups, errors and counter. */
  function ThicknBaseSize(rev: int): nat { 4 + 4 * ProfileCount(rev) + 4 + 36 + 2 + 2 + 4 }

  /** The bytes of one head record. */
  function ThicknHeadSize(rev: int): nat
  {
    ThicknBaseSize(rev)
    + (if rev > 48 then 4 else 0)
    + (if rev > 59 then 8 else 0)
    + (if rev > 59 && HasBoardWidths(rev) then 4 + 1 + 3 + 4 * 4 else 0)
  }

  /** Where the last read of a head ends: the vacant bytes after the flag read nothing. */
  function ThicknHeadReadEnd(rev: int): nat
  {
    if rev > 59 && HasBoardWidths(rev) then ThicknHeadSize(rev) - 19 else ThicknHeadSize(rev)
  }

  /** The reads of a head stay inside its record. */
  lemma ThicknHeadReadInside(rev: int)
    ensures ThicknHeadReadEnd(rev) <= ThicknHeadSize(rev)
  {
  }

  /** The four record sizes: 92, 216, 224 and 248 bytes. */
  lemma ThicknHeadLayout(rev: int)
    ensures ThicknHeadSize(rev) == if rev <= 48 then 92 else if rev <= 59 then 216 else if HasBoardWidths(rev) then 248 else 224
  {
  }

  /** The error word and the data counter of the status block at `s`, after 36 skipped bytes. */
  function ThicknStatusAt(w: Window, s: int): (nat, nat) { (w.U16At(s + 36), w.U32At(s + 40)) }

  /** The fields of revision 49 onwards at `e`, or their defaults when the revision has not got them. */
  function ThicknExtrasAt(w: Window, e: int, rev: int): ThicknExtras
  {
    if rev <= 48 then ThicknExtras(0, 0, Int(1), Int(1), 0, 0, false)
    else if rev <= 59 then ThicknExtras(w.I16At(e), w.I16At(e + 2), Int(1), Int(1), 0, 0, false)
    else if !HasBoardWidths(rev) then ThicknExtras(w.I16At(e), w.I16At(e + 2), F32(w.F32At(e + 4)), F32(w.F32At(e + 8)), 0, 0, false)
    else ThicknExtras(w.I16At(e), w.I16At(e + 2), F32(w.F32At(e + 4)), F32(w.F32At(e + 8)),
      w.I16At(e + 12), w.I16At(e + 14), w.BoolAt(e + 16))
  }

  /** Files before revision 49 hold one cup diameter, which is the lower cup too. */
  function CupLowOf(rev: int, cupUp: int, cupLow: int): int { if rev <= 48 then cupUp else cupLow }

  /** The profile pairs at `q`. */
  function ProfileAt(w: Window, q: int, rev: int): seq<Point> { PointsAt(w, q, ProfileCount(rev)) }

  /** The identifiers, the profile and the cups at `q`: the part of a head before its status block. */
  function ThicknFrontAt(w: Window, q: int, rev: int): (int, int, seq<Point>, int, int)
  {
    var c := q + 4 + 4 * ProfileCount(rev);
    (w.I16At(q), w.I16At(q + 2), ProfileAt(w, q + 4, rev), w.I16At(c), CupLowOf(rev, w.I16At(c), w.I16At(c + 2)))
  }

  /** The head record at `q`, before any error conversion; in older files the lower cup is the upper one. */
  function ThicknHeadAt(w: Window, q: int, rev: int): ThicknHead
  {
    var f := ThicknFrontAt(w, q, rev);
    var status := ThicknStatusAt(w, q + 8 + 4 * ProfileCount(rev));
    ThicknHead(f.0, f.1, f.2, f.3, f.4, status.0, status.1, ThicknExtrasAt(w, q + ThicknBaseSize(rev), rev))
  }

  /** The decoder of one record, for runs of them. */
  function ThicknHeadReader(w: Window, rev: int): int -> ThicknHead { q => ThicknHeadAt(w, q, rev) }

  /** `n` head records one record size apart from `p`: head `j` is the record `j` record sizes after `p`. */
  function ThicknHeadsAt(w: Window, p: int, rev: int, n: nat): (s: seq<ThicknHead>)
    ensures |s| == n
  {
    RunAt(ThicknHeadReader(w, rev), p, ThicknHeadSize(rev), n)
  }

  /** Which bits the default values of a head leave for older revisions. */
  lemma ThicknHeadDefaults(w: Window, q: int, rev: int)
    ensures var h := ThicknHeadAt(w, q, rev);
      |h.profilePoints| == ProfileCount(rev)
      && (rev <= 48 ==> h.cupLow == h.cupUp && h.extras.thickness2 == 0 && h.extras.thickness3 == 0)
      && (rev <= 59 ==> h.extras.validUp == Int(1) && h.extras.validLow == Int(1))
      && (!(rev > 59 && HasBoardWidths(rev)) ==> h.extras.brdWidthUp == 0 && h.extras.brdWidthLo == 0 && !h.extras.isTemperature)
      && h.errorCode < 0x1_0000
  {
  }

  /** The skipped error data, the error word, two alignment bytes and the data counter. */
  method ReadThicknStatus(r: ByteReader) returns (res: Result<(nat, nat)>)
    modifies r
    ensures res.Success? ==> r.win.Within(old(r.pos) + 36, 8)
    ensures res.Success? ==> r.pos == old(r.pos) + 44 && res.value == ThicknStatusAt(r.win, old(r.pos))
    ensures res.Failure? ==> !r.win.Within(old(r.pos) + 36, 8) && res.error.ReadPastEnd?
  {
    r.IncOffset(36);
    var errorCode :- r.ReadWord();
    var align1 :- r.ReadByte();
    var align2 :- r.ReadByte();
    var thDataCounter :- r.ReadCardinal();
    res := Success((errorCode, thDataCounter));
  }

  method ReadThicknExtras(r: ByteReader, rev: int) returns (res: Result<ThicknExtras>)
    requires rev > 48
    modifies r
    ensures res.Success? ==> r.win.Within(old(r.pos), ThicknHeadReadEnd(rev) - ThicknBaseSize(rev))
    ensures res.Success? ==> r.pos == old(r.pos) + ThicknHeadSize(rev) - ThicknBaseSize(rev)
    ensures res.Success? ==> res.value == ThicknExtrasAt(r.win, old(r.pos), rev)
    ensures res.Failure? ==> !r.win.Within(old(r.pos), ThicknHeadReadEnd(rev) - ThicknBaseSize(rev)) && res.error.ReadPastEnd?
  {
    var thickness2 :- r.ReadSmallInt();
    var thickness3 :- r.ReadSmallInt();
    var validUp, validLow := Int(1), Int(1);
    var brdWidthUp, brdWidthLo, isTemperature := 0, 0, false;
    if rev > 59 {
      var up :- r.ReadSingle();
      var low :- r.ReadSingle();
      validUp, validLow := F32(up), F32(low);
      if (rev >= 517) || ((rev < 500) && (rev >= 132)) {
        brdWidthUp :- r.ReadSmallInt();
        brdWidthLo :- r.ReadSmallInt();
        isTemperature :- r.ReadBoolean();
        r.IncOffset(3 + 4 * 4);
      }
    }
    res := Success(ThicknExtras(thickness2, thickness3, validUp, validLow, brdWidthUp, brdWidthLo, isTemperature));
  }

  /** The identifiers, the profile points and the two cup diameters. */
  method ReadThicknFront(r: ByteReader, rev: int) returns (res: Result<(int, int, seq<Point>, int, int)>)
    modifies r
    ensures res.Success? ==> r.win.Within(old(r.pos), 8 + 4 * ProfileCount(rev))
    ensures res.Success? ==> r.pos == old(r.pos) + 8 + 4 * ProfileCount(rev) && res.value == ThicknFrontAt(r.win, old(r.pos), rev)
    ensures res.Failure? ==> !r.win.Within(old(r.pos), 8 + 4 * ProfileCount(rev)) && res.error.ReadPastEnd?
  {
    var thId :- r.ReadSmallInt();
    var thickness :- r.ReadSmallInt();
    var profilePoints :- ReadPoints(r, ProfileCount(rev));
    var cupUp :- r.ReadSmallInt();
    var cupLow :- r.ReadSmallInt();
    if rev <= 48 {
      cupLow := cupUp;
    }
    res := Success((thId, thickness, profilePoints, cupUp, cupLow));
  }

  method ReadThicknHead(r: ByteReader, rev: int) returns (res: Result<ThicknHead>)
    modifies r
    ensures res.Success? ==> r.win.Within(old(r.pos), ThicknHeadReadEnd(rev))
    ensures res.Success? ==> r.pos == old(r.pos) + ThicknHeadSize(rev) && res.value == ThicknHeadAt(r.win, old(r.pos), rev)
    ensures res.Failure? ==> !r.win.Within(old(r.pos), ThicknHeadReadEnd(rev)) && res.error.ReadPastEnd?
  {
    ghost var p0 := r.pos;
    var front :- ReadThicknFront(r, rev);
    var status :- ReadThicknStatus(r);
    ghost var e := r.pos;
    var extras := ThicknExtras(0, 0, Int(1), Int(1), 0, 0, false);
    if rev > 48 {
      extras :- ReadThicknExtras(r, rev);
    } else {
      ThicknExtrasDefault(r.win, e, rev);
    }
    res := Success(ThicknHead(front.0, front.1, front.2, front.3, front.4, status.0, status.1, extras));
  }

  /** Before revision 49 the extras of a head are the defaults. */
  lemma ThicknExtrasDefault(w: Window, e: int, rev: int)
    requires rev <= 48
    ensures ThicknExtrasAt(w, e, rev) == ThicknExtras(0, 0, Int(1), Int(1), 0, 0, false)
  {
  }

  method ReadThicknHeads(r: ByteReader, rev: int, n: int) returns (res: Result<seq<ThicknHead>>)
    modifies r
    ensures res.Success? ==> Count(n) == 0 || r.win.Within(old(r.pos), (Count(n) - 1) * ThicknHeadSize(rev) + ThicknHeadReadEnd(rev))
    ensures res.Success? ==> r.pos == old(r.pos) + Count(n) * ThicknHeadSize(rev)
    ensures res.Success? ==> res.value == ThicknHeadsAt(r.win, old(r.pos), rev, Count(n))
    ensures res.Failure? ==> Count(n) > 0 && !r.win.Within(old(r.pos), (Count(n) - 1) * ThicknHeadSize(rev) + ThicknHeadReadEnd(rev))
    ensures res.Failure? ==> res.error.ReadPastEnd?
  {
    ghost var p0 := r.pos;
    ghost var size := ThicknHeadSize(rev);
    ghost var last := ThicknHeadReadEnd(rev);
    ThicknHeadReadInside(rev);
    var acc: seq<ThicknHead> := [];
    var i := 0;
    while i < Count(n)
      invariant 0 <= i <= Count(n)
      invariant r.pos == p0 + i * size
      invariant i > 0 ==> r.win.Within(p0, (i - 1) * size + last)
      invariant acc == RunAt(ThicknHeadReader(r.win, rev), p0, size, i)
    {
      StrideStep(size, last, i, Count(n));
      ghost var q := r.pos;
      var h :- ReadThicknHead(r, rev);
      RunAtStep(ThicknHeadReader(r.win, rev), p0, size, i, q, h);
      acc := acc + [h];
      i := i + 1;
    }
    res := Success(acc);
  }

  /** Whether the records of `n` heads from `p` can be read. */
  predicate ThicknHeadsFit(w: Window, p: int, rev: int, n: nat)
  {
    n == 0 || w.Within(p, (n - 1) * ThicknHeadSize(rev) + ThicknHeadReadEnd(rev))
  }

  /**
   * `ReadThicknData` once the head records `raw` are read: before revision
   * 500 the error words of the first `nrHeads` heads are converted, and a
   * head beyond the ones read is an access to an undefined element.
   */
  function ThicknDataOf(raw: seq<ThicknHead>, rev: int, nrHeads: int): Result<seq<ThicknHead>>
  {
    if rev >= 500 then Success(raw)
    else if Count(nrHeads) <= |raw| then Success(ConvertedHeads(raw, Count(nrHeads)))
    else Failure(UndefinedAccess)
  }

  method ReadThicknData(r: ByteReader, rev: int, nrHeads: int) returns (res: Result<seq<ThicknHead>>)
    modifies r
    ensures ThicknHeadsFit(r.win, old(r.pos), rev, Count(HeadCount(rev, nrHeads)))
      ==> res == ThicknDataOf(ThicknHeadsAt(r.win, old(r.pos), rev, Count(HeadCount(rev, nrHeads))), rev, nrHeads)
    ensures ThicknHeadsFit(r.win, old(r.pos), rev, Count(HeadCount(rev, nrHeads)))
      ==> r.pos == old(r.pos) + Count(HeadCount(rev, nrHeads)) * ThicknHeadSize(rev)
    ensures !ThicknHeadsFit(r.win, old(r.pos), rev, Count(HeadCount(rev, nrHeads))) ==> res.Failure? && res.error.ReadPastEnd?
  {
    var heads :- ReadThicknHeads(r, rev, HeadCount(rev, nrHeads));
    if rev < 500 {
      res := ConvertThErrors(heads, nrHeads);
    } else {
      res := Success(heads);
    }
  }

  /** The decode fails on an undefined head exactly for revisions 132 to 499 with more than four declared heads. */
  lemma ThicknDataUndefined(raw: seq<ThicknHead>, rev: int, nrHeads: int)
    requires |raw| == Count(HeadCount(rev, nrHeads))
    ensures ThicknDataOf(raw, rev, nrHeads).Failure? <==> 132 <= rev < 500 && nrHeads > 4
    ensures ThicknDataOf(raw, rev, nrHeads).Failure? ==> ThicknDataOf(raw, rev, nrHeads).error == UndefinedAccess
  {
  }

  /**
   * A decoded head list keeps the heads as read except for the converted
   * error words, which never carry bit 0 or bit 8 and fit in 16 bits.
   */
  lemma ThicknDataHeads(raw: seq<ThicknHead>, rev: int, nrHeads: int, j: nat)
    requires ThicknDataOf(raw, rev, nrHeads).Success? && j < |raw|
    ensures |ThicknDataOf(raw, rev, nrHeads).value| == |raw|
    ensures ThicknDataOf(raw, rev, nrHeads).value[j].(errorCode := raw[j].errorCode) == raw[j]
    ensures rev < 500 && j < nrHeads ==> ThicknDataOf(raw, rev, nrHeads).value[j].errorCode == NovaErrorCode(raw[j].errorCode)
    ensures rev < 500 && j < nrHeads ==> ThicknDataOf(raw, rev, nrHeads).value[j].errorCode < 0x1_0000
    ensures rev < 500 && j < nrHeads ==> !Bit(ThicknDataOf(raw, rev, nrHeads).value[j].errorCode, 0)
    ensures rev >= 500 || j >= nrHeads ==> ThicknDataOf(raw, rev, nrHeads).value[j] == raw[j]
  {
    NovaErrorFreeBits(raw[j].errorCode);
    NovaErrorAfterBelow(raw[j].errorCode, 15);
  }

  /** The heads with the error words of the first `n` converted. */
  function ConvertedHeads(heads: seq<ThicknHead>, n: nat): (s: seq<ThicknHead>)
    requires n <= |heads|
    ensures |s| == |heads|
  {
    seq(|heads|, j requires 0 <= j < |heads| => if j < n then heads[j].(errorCode := NovaErrorCode(heads[j].errorCode)) else heads[j])
  }

  /** The conversion loop over heads 1 to `nrHeads`; a head that was not read cannot be converted. */
  method ConvertThErrors(heads: seq<ThicknHead>, nrHeads: int) returns (res: Result<seq<ThicknHead>>)
    ensures res.Success? <==> Count(nrHeads) <= |heads|
    ensures res.Success? ==> res.value == ConvertedHeads(heads, Count(nrHeads))
    ensures res.Failure? ==> res.error == UndefinedAccess
  {
    var out := heads;
    var i := 0;
    while i < Count(nrHeads)
      invariant 0 <= i <= Count(nrHeads) && i <= |heads|
      invariant |out| == |heads|
      invariant forall j :: 0 <= j < |heads| ==> out[j] == if j < i then heads[j].(errorCode := NovaErrorCode(heads[j].errorCode)) else heads[j]
    {
      if i >= |heads| {
        return Failure(UndefinedAccess);
      }
      var code := ConvertThError(out[i].errorCode);
      out := out[i := out[i].(errorCode := code)];
      i := i + 1;
    }
    assert out == ConvertedHeads(heads, Count(nrHeads));
    res := Success(out);
  }

  // ---------------------------------------------------------------------
  // The error bits of the legacy heads.
  // ---------------------------------------------------------------------

  /** Where legacy error bit `k` (0 to 14) goes in the current encoding; bit 15 has no image. */
  function NovaBit(k: nat): nat
    requires k < 15
  {
    if k == 0 then 6 else if k == 6 then 7 else if k == 7 then 3 else if k >= 8 then k + 1 else k
  }

  /** The mask of bit `NovaBit(k)`, as the conversion writes it. */
  function NovaMask(k: nat): nat
    requires k < 15
  {
    [0x40, 0x2, 0x4, 0x8, 0x10, 0x20, 0x80, 0x8, 0x200, 0x400, 0x800, 0x1000, 0x2000, 0x4000, 0x8000][k]
  }

  /** The current error word built from legacy bits 0 to k - 1. */
  function NovaErrorAfter(hd: nat, k: nat): nat
    requires k <= 15
  {
    if k == 0 then 0 else NovaStep(hd, k - 1, NovaErrorAfter(hd, k - 1))
  }

  /** Legacy bit `k` of `hd`, if set, adds its image to `code`. */
  function NovaStep(hd: nat, k: nat, code: nat): nat
    requires k < 15
  {
    if Bit(hd, k) then BitOr(code, NovaMask(k)) else code
  }

  /** The current error word for a legacy one. */
  function NovaErrorCode(hd: nat): nat { NovaErrorAfter(hd, 15) }

  /** The conversion of one legacy error word, in the order the bits are tested. */
  method ConvertThError(hd: nat) returns (code: nat)
    ensures code == NovaErrorCode(hd)
  {
    code := ConvertThErrorLow(hd);
    code := ConvertThErrorMiddle(hd, code);
    code := ConvertThErrorHigh(hd, code);
  }

  /** Legacy bits 0 to 3: bit 0 becomes bit 6, bits 1 to 3 stay. */
  method ConvertThErrorLow(hd: nat) returns (code: nat)
    ensures code == NovaErrorAfter(hd, 4)
  {
    code := 0;
    if Bit(hd, 0) { code := BitOr(code, 0x40); }
    assert code == NovaErrorAfter(hd, 1);
    if Bit(hd, 1) { code := BitOr(code, 0x2); }
    assert code == NovaErrorAfter(hd, 2);
    if Bit(hd, 2) { code := BitOr(code, 0x4); }
    assert code == NovaErrorAfter(hd, 3);
    if Bit(hd, 3) { code := BitOr(code, 0x8); }
    assert code == NovaErrorAfter(hd, 4);
  }

  /** Legacy bits 4 to 7: bits 4 and 5 stay, bit 6 becomes bit 7 and bit 7 becomes bit 3. */
  method ConvertThErrorMiddle(hd: nat, low: nat) returns (code: nat)
    requires low == NovaErrorAfter(hd, 4)
    ensures code == NovaErrorAfter(hd, 8)
  {
    code := low;
    if Bit(hd, 4) { code := BitOr(code, 0x10); }
    assert code == NovaErrorAfter(hd, 5);
    if Bit(hd, 5) { code := BitOr(code, 0x20); }
    assert code == NovaErrorAfter(hd, 6);
    if Bit(hd, 6) { code := BitOr(code, 0x80); }
    assert code == NovaErrorAfter(hd, 7);
    if Bit(hd, 7) { code := BitOr(code, 0x8); }
    assert code == NovaErrorAfter(hd, 8);
  }

  /** Legacy bits 8 to 14: each moved up by one; bit 15 is dropped. */
  method ConvertThErrorHigh(hd: nat, middle: nat) returns (code: nat)
    requires middle == NovaErrorAfter(hd, 8)
    ensures code == NovaErrorCode(hd)
  {
    code := middle;
    if Bit(hd, 8) { code := BitOr(code, 0x200); }
    assert code == NovaErrorAfter(hd, 9);
    if Bit(hd, 9) { code := BitOr(code, 0x400); }
    assert code == NovaErrorAfter(hd, 10);
    if Bit(hd, 10) { code := BitOr(code, 0x800); }
    assert code == NovaErrorAfter(hd, 11);
    if Bit(hd, 11) { code := BitOr(code, 0x1000); }
    assert code == NovaErrorAfter(hd, 12);
    if Bit(hd, 12) { code := BitOr(code, 0x2000); }
    assert code == NovaErrorAfter(hd, 13);
    if Bit(hd, 13) { code := BitOr(code, 0x4000); }
    assert code == NovaErrorAfter(hd, 14);
    if Bit(hd, 14) { code := BitOr(code, 0x8000); }
    assert code == NovaErrorAfter(hd, 15);
  }

  lemma Pow2Small()
    ensures Pow2(1) == 0x2 && Pow2(2) == 0x4 && Pow2(3) == 0x8 && Pow2(4) == 0x10 && Pow2(5) == 0x20
    ensures Pow2(6) == 0x40 && Pow2(7) == 0x80 && Pow2(9) == 0x200 && Pow2(10) == 0x400 && Pow2(11) == 0x800
    ensures Pow2(12) == 0x1000 && Pow2(13) == 0x2000 && Pow2(14) == 0x4000 && Pow2(15) == 0x8000 && Pow2(16) == 0x1_0000
  {
    assert Pow2(4) == 0x10;
    assert Pow2(8) == 0x100;
    assert Pow2(12) == 0x1000;
  }

  /** Each mask the conversion writes is the single bit `NovaBit(k)`. */
  lemma NovaMaskIsPow2(k: nat)
    requires k < 15
    ensures NovaMask(k) == Pow2(NovaBit(k))
  {
    Pow2Small();
  }

  /**
   * Bit m of the word built from legacy bits 0 to n - 1 is set exactly when
   * one of those legacy bits is set and maps to m.
   */
  lemma {:induction false} NovaErrorAfterBits(hd: nat, n: nat, m: nat)
    requires n <= 15
    ensures Bit(NovaErrorAfter(hd, n), m) <==> exists k :: 0 <= k < n && Bit(hd, k) && NovaBit(k) == m
  {
    if n == 0 {
      BitOfZero(m);
    } else {
      NovaErrorAfterBits(hd, n - 1, m);
      var a := NovaErrorAfter(hd, n - 1);
      if Bit(hd, n - 1) {
        BitOfOr(a, NovaMask(n - 1), m);
        NovaMaskIsPow2(n - 1);
        BitOfPow2(NovaBit(n - 1), m);
      }
      if exists k :: 0 <= k < n && Bit(hd, k) && NovaBit(k) == m {
        var k :| 0 <= k < n && Bit(hd, k) && NovaBit(k) == m;
        if k < n - 1 {
          assert exists k' :: 0 <= k' < n - 1 && Bit(hd, k') && NovaBit(k') == m;
        }
      }
    }
  }

  /** The remap: bit m of the converted word is set exactly when a legacy bit that maps to m is set. */
  lemma NovaErrorBits(hd: nat, m: nat)
    ensures Bit(NovaErrorCode(hd), m) <==> exists k :: 0 <= k < 15 && Bit(hd, k) && NovaBit(k) == m
  {
    NovaErrorAfterBits(hd, 15, m);
  }

  /** The converted word never has bit 0 (0x1) or bit 8 (0x100) set. */
  lemma NovaErrorFreeBits(hd: nat)
    ensures !Bit(NovaErrorCode(hd), 0) && !Bit(NovaErrorCode(hd), 8)
  {
    NovaErrorBits(hd, 0);
    NovaErrorBits(hd, 8);
  }

  /** The converted word fits in the 16-bit error word. */
  lemma {:induction false} NovaErrorAfterBelow(hd: nat, n: nat)
    requires n <= 15
    ensures NovaErrorAfter(hd, n) < 0x1_0000
  {
    Pow2Small();
    if n > 0 {
      NovaErrorAfterBelow(hd, n - 1);
      if Bit(hd, n - 1) {
        NovaMaskIsPow2(n - 1);
        Pow2Monotone(NovaBit(n - 1), 16);
        OrBelow(NovaErrorAfter(hd, n - 1), NovaMask(n - 1), 16);
      }
    }
  }

  /** A single legacy bit k converts to its mask, and nothing else. */
  lemma {:induction false} NovaErrorAfterSingle(k: nat, n: nat)
    requires k < 15 && n <= 15
    ensures NovaErrorAfter(Pow2(k), n) == if k < n then NovaMask(k) else 0
  {
    if n > 0 {
      NovaErrorAfterSingle(k, n - 1);
      var before := NovaErrorAfter(Pow2(k), n - 1);
      BitOfPow2(k, n - 1);
      if k == n - 1 {
        assert before == 0;
        BitOrZero(NovaMask(k));
        assert NovaStep(Pow2(k), n - 1, before) == BitOr(0, NovaMask(k));
      } else {
        assert NovaStep(Pow2(k), n - 1, before) == before;
      }
    }
  }

  lemma NovaErrorSingle(k: nat)
    requires k < 15
    ensures NovaErrorCode(Pow2(k)) == NovaMask(k)
  {
    NovaErrorAfterSingle(k, 15);
  }

  /** `0 | b` is `b`. */
  lemma {:induction false} BitOrZero(b: nat)
    ensures BitOr(0, b) == b
    decreases b
  {
    if b != 0 {
      BitOrZero(b / 2);
    }
  }

  /** Legacy bit 15 (0x8000) has no image: setting it does not change the converted word. */
  lemma {:induction false} NovaErrorAfterIgnoresBit15(hd: nat, n: nat)
    requires n <= 15
    ensures NovaErrorAfter(hd + 0x8000, n) == NovaErrorAfter(hd, n)
  {
    if n > 0 {
      NovaErrorAfterIgnoresBit15(hd, n - 1);
      Pow2Small();
      BitAddHigh(hd, 1, 15, n - 1);
    }
  }

  lemma NovaErrorDropsBit15(hd: nat)
    ensures NovaErrorCode(hd + 0x8000) == NovaErrorCode(hd)
    ensures NovaErrorCode(0x8000) == 0
  {
    NovaErrorAfterIgnoresBit15(hd, 15);
    NovaErrorAfterIgnoresBit15(0, 15);
    NovaErrorAfterZero(15);
  }

  lemma {:induction false} NovaErrorAfterZero(n: nat)
    requires n <= 15
    ensures NovaErrorAfter(0, n) == 0
  {
    if n > 0 {
      NovaErrorAfterZero(n - 1);
      BitOfZero(n - 1);
    }
  }

  /** Adding a multiple of 2^j leaves the bits below j alone. */
  lemma {:induction false} BitAddHigh(a: nat, c: nat, j: nat, k: nat)
    requires k < j
    ensures Bit(a + c * Pow2(j), k) == Bit(a, k)
  {
    assert Pow2(j) == 2 * Pow2(j - 1);
    assert c * Pow2(j) == 2 * (c * Pow2(j - 1));
    if k > 0 {
      assert (a + c * Pow2(j)) / 2 == a / 2 + c * Pow2(j - 1);
      BitAddHigh(a / 2, c, j - 1, k - 1);
    }
  }
}
