/**
 * The texture blocks of a board record: the empty-texture block skipped for
 * each face (ReadXuTexture), the texture point grids (readTexturePoints) and
 * the slice data with its camera images (ReadSliceData2). Pixel and grid
 * contents are read and dropped; what the model keeps is what the decoder
 * keeps: the counts, and the number of bytes each block takes.
 */
module Texture {
  import opened Wrappers
  import opened Bytes
  import opened Reader
  import opened Arrays

  // ---------------------------------------------------------------------
  // ReadXuTexture: a count, then an array of empty textures and their sum.
  // ---------------------------------------------------------------------

  /** Bytes of one empty-texture entry of a revision. */
  function XuTextureLen(rev: int): nat
  {
    if rev >= 500 then 40
    else if rev > 101 then 40
    else if rev > 100 then 34
    else if rev > 95 then 40
    else if rev > 79 then 34
    else if rev > 78 then 28
    else if rev > 76 then 20
    else if rev > 75 then 14
    else 12
  }

  /** Bytes of the empty-texture array of a revision, as the decoder's constants give them. */
  function XuArrayLen(rev: int): nat
  {
    if rev >= 505 then 52800
    else if rev >= 500 then 31680
    else if rev > 101 then 15840
    else if rev > 100 then 13464
    else if rev > 95 then 15840
    else if rev > 79 then 13464
    else if rev > 78 then 11088
    else if rev > 76 then 7920
    else if rev > 75 then 5544
    else 4752
  }

  /** Cameras of a revision: ten from 505, six from 500, three before. */
  function TextureCams(rev: int): (n: nat)
    ensures n == 3 || n == 6 || n == 10
  {
    if rev >= 505 then 10 else if rev >= 500 then 6 else 3
  }

  /** The array holds one entry for each of the 132 slices of each camera. */
  lemma XuArrayIsGrid(rev: int)
    ensures XuArrayLen(rev) == TextureCams(rev) * 132 * XuTextureLen(rev)
  {
  }

  /** The skipped block is a whole number of entries: the array plus one more for the sum. */
  lemma XuSkipEntries(rev: int)
    ensures XuArrayLen(rev) + XuTextureLen(rev) == (TextureCams(rev) * 132 + 1) * XuTextureLen(rev)
  {
    XuArrayIsGrid(rev);
  }

  /** Bytes of the whole block: the count, the array and the sum. */
  function XuTextureSize(rev: int): nat { 4 + XuArrayLen(rev) + XuTextureLen(rev) }

  /**
   * `ReadXuTexture`: reads the empty-texture count and skips the rest of the
   * block. The decoder drops the count; it is returned here so that the
   * contract can say what was read.
   */
  method ReadXuTexture(r: ByteReader, rev: int) returns (res: Result<int>)
    modifies r
    ensures res.Success? <==> r.win.Within(old(r.pos), 4)
    ensures res.Success? ==> res.value == r.win.I32At(old(r.pos)) && r.pos == old(r.pos) + XuTextureSize(rev)
    ensures res.Failure? ==> res.error.ReadPastEnd?
  {
    var txCount :- r.ReadInteger();
    if rev >= 505 {
      r.IncOffset(52800);
      r.IncOffset(40);
    } else if rev >= 500 {
      r.IncOffset(31680);
      r.IncOffset(40);
    } else if rev > 101 {
      r.IncOffset(15840);
      r.IncOffset(40);
    } else if rev > 100 {
      r.IncOffset(13464);
      r.IncOffset(34);
    } else if rev > 95 {
      r.IncOffset(15840);
      r.IncOffset(40);
    } else if rev > 79 {
      r.IncOffset(13464);
      r.IncOffset(34);
    } else if rev > 78 {
      r.IncOffset(11088);
      r.IncOffset(28);
    } else if rev > 76 {
      r.IncOffset(7920);
      r.IncOffset(20);
    } else if rev > 75 {
      r.IncOffset(5544);
      r.IncOffset(14);
    } else {
      r.IncOffset(4752);
      r.IncOffset(12);
    }
    res := Success(txCount);
  }

  /** Sizes by revision: 52844 from 505, 31724 for 500-504, 15884 for rev 96-100 and 102-499. */
  lemma XuTextureSizes(rev: int)
    ensures rev >= 505 ==> XuTextureSize(rev) == 52844
    ensures 500 <= rev < 505 ==> XuTextureSize(rev) == 31724
    ensures (101 < rev < 500 || 95 < rev < 101) ==> XuTextureSize(rev) == 15884
    ensures (rev == 101 || 79 < rev <= 95) ==> XuTextureSize(rev) == 13502
    ensures rev <= 75 ==> XuTextureSize(rev) == 4768
  {
  }

  // ---------------------------------------------------------------------
  // readTexturePoints: two counts and a grid of 132 entries per camera.
  // ---------------------------------------------------------------------

  datatype TexturePoints = TexturePoints(sliceCount: int, turner: int)

  /** Bytes of one grid entry: six integers and the unused x position. */
  const PDEntrySize := 28

  /** Entries of the grid: 132 per camera. */
  function PDEntries(rev: int): nat { TextureCams(rev) * 132 }

  function TexturePointsSize(rev: int): nat { 8 + PDEntrySize * PDEntries(rev) }

  /** Where the last read of the block ends: the x position after the last entry is skipped, not read. */
  function TexturePointsReadEnd(rev: int): nat { TexturePointsSize(rev) - 4 }

  function TexturePointsAt(w: Window, p: int): TexturePoints { TexturePoints(w.I32At(p), w.I32At(p + 4)) }

  /** One grid entry, read and dropped. */
  method SkipPDEntry(r: ByteReader) returns (res: Result<()>)
    modifies r
    ensures res.Success? ==> r.win.Within(old(r.pos), 24) && r.pos == old(r.pos) + PDEntrySize
    ensures res.Failure? ==> !r.win.Within(old(r.pos), 24) && res.error.ReadPastEnd?
  {
    var begSweep :- r.ReadInteger();
    var endSweep :- r.ReadInteger();
    var begSFSweep :- r.ReadInteger();
    var endSFSweep :- r.ReadInteger();
    var cam :- r.ReadInteger();
    var camSlice :- r.ReadInteger();
    r.IncOffset(4);
    res := Success(());
  }

  /** `n` grid entries, read and dropped. */
  method SkipPDEntries(r: ByteReader, n: nat) returns (res: Result<()>)
    modifies r
    ensures res.Success? ==> (n == 0 || r.win.Within(old(r.pos), PDEntrySize * n - 4)) && r.pos == old(r.pos) + PDEntrySize * n
    ensures res.Failure? ==> n > 0 && !r.win.Within(old(r.pos), PDEntrySize * n - 4) && res.error.ReadPastEnd?
  {
    ghost var p0 := r.pos;
    var i := 0;
    while i < n
      invariant 0 <= i <= n
      invariant r.pos == p0 + PDEntrySize * i
      invariant i > 0 ==> r.win.Within(p0, PDEntrySize * i - 4)
    {
      var e :- SkipPDEntry(r);
      i := i + 1;
    }
    res := Success(());
  }

  /** `readTexturePoints`: the slice count, the turner and the grid of the revision's cameras. */
  method ReadTexturePoints(r: ByteReader, rev: int) returns (res: Result<TexturePoints>)
    modifies r
    ensures res.Success? ==> r.win.Within(old(r.pos), TexturePointsReadEnd(rev))
    ensures res.Success? ==> r.pos == old(r.pos) + TexturePointsSize(rev) && res.value == TexturePointsAt(r.win, old(r.pos))
    ensures res.Failure? ==> !r.win.Within(old(r.pos), TexturePointsReadEnd(rev)) && res.error.ReadPastEnd?
  {
    var sliceCount :- r.ReadInteger();
    var turner :- r.ReadInteger();
    var grid :- SkipPDEntries(r, PDEntries(rev));
    res := Success(TexturePoints(sliceCount, turner));
  }

  /** Block sizes: 36968 bytes from revision 505, 22184 for 500-504, 11096 before. */
  lemma TexturePointsSizes(rev: int)
    ensures rev >= 505 ==> TexturePointsSize(rev) == 36968
    ensures 500 <= rev < 505 ==> TexturePointsSize(rev) == 22184
    ensures rev < 500 ==> TexturePointsSize(rev) == 11096
  {
  }

  // ---------------------------------------------------------------------
  // ReadSliceData2: camera count, sweep counts, slice count, images, skips.
  // ---------------------------------------------------------------------

  datatype SliceData = SliceData(ipCamCount: int, sweepCount: seq<int>, sliceCount: int)

  /** Cameras whose images the block holds: the stored count from revision 525. */
  function SliceCams(rev: int, stored: nat): nat
  {
    if rev >= 525 then stored else TextureCams(rev)
  }

  /** Cameras with a sweep count: the stored count from 525, ten from 505, one before. */
  function SweepCams(rev: int, stored: nat): nat
  {
    if rev >= 525 then stored else if rev >= 505 then 10 else 1
  }

  /** The cameras each have their sweep count stored from revision 505 on. */
  lemma SweepCamsFrom505(rev: int, stored: nat)
    ensures rev >= 505 ==> SweepCams(rev, stored) == SliceCams(rev, stored)
    ensures rev < 505 ==> SweepCams(rev, stored) == 1 < SliceCams(rev, stored)
  {
  }

  /**
   * The number of leading positive sweep counts among the first `n`, counting
   * stops at the first one that is not positive or not stored.
   */
  function LeadingPositive(s: seq<int>, n: nat): (k: nat)
    ensures k <= n && k <= |s|
    ensures forall j :: 0 <= j < k ==> s[j] > 0
    ensures k < n && k < |s| ==> s[k] <= 0
  {
    if n == 0 || |s| == 0 || s[0] <= 0 then 0 else 1 + LeadingPositive(s[1..], n - 1)
  }

  /** The three properties of LeadingPositive determine it. */
  lemma {:induction false} LeadingPositiveUnique(s: seq<int>, n: nat, k: nat)
    requires k <= n && k <= |s|
    requires forall j :: 0 <= j < k ==> s[j] > 0
    requires k == n || k == |s| || s[k] <= 0
    ensures k == LeadingPositive(s, n)
  {
    if k > 0 {
      assert forall j :: 0 <= j < k - 1 ==> s[1..][j] > 0 by {
        forall j | 0 <= j < k - 1
          ensures s[1..][j] > 0
        {
          assert s[1..][j] == s[j + 1];
        }
      }
      assert k - 1 == n - 1 || k - 1 == |s[1..]| || s[1..][k - 1] <= 0;
      LeadingPositiveUnique(s[1..], n - 1, k - 1);
    }
  }

  /** The camera count derived from the sweep counts when none is stored (the loop of ReadSliceData2). */
  method CountLiveCams(sweeps: seq<int>, camCount: nat) returns (k: nat)
    ensures k == LeadingPositive(sweeps, camCount)
  {
    k := 0;
    var i := 0;
    while i < camCount
      invariant 0 <= i <= camCount && k == i && i <= |sweeps|
      invariant forall j :: 0 <= j < i ==> sweeps[j] > 0
    {
      if i < |sweeps| && sweeps[i] > 0 {
        k := k + 1;
      } else {
        LeadingPositiveUnique(sweeps, camCount, k);
        return;
      }
      i := i + 1;
    }
    LeadingPositiveUnique(sweeps, camCount, k);
  }

  /** A stored slice count of zero stands for 128. */
  function SliceCountOf(stored: int): (n: int)
    ensures n != 0
    ensures stored != 0 ==> n == stored
  {
    if stored == 0 then 128 else stored
  }

  /** Image rows (sweeps) of camera `c`: its sweep count from revision 525, never negative; 800 before. */
  function Rows(rev: int, sweeps: seq<int>, c: nat): nat
  {
    if rev < 525 then 800 else if c < |sweeps| then Count(sweeps[c]) else 0
  }

  /** Image rows of the cameras before `c`. */
  function RowsBefore(rev: int, sweeps: seq<int>, c: nat): nat
  {
    if c == 0 then 0 else RowsBefore(rev, sweeps, c - 1) + Rows(rev, sweeps, c - 1)
  }

  lemma {:induction false} RowsBeforeMonotone(rev: int, sweeps: seq<int>, c: nat, n: nat)
    requires c <= n
    decreases n
    ensures RowsBefore(rev, sweeps, c) <= RowsBefore(rev, sweeps, n)
  {
    if c < n {
      RowsBeforeMonotone(rev, sweeps, c, n - 1);
    }
  }

  /** Before revision 525 every camera has 800 rows. */
  lemma {:induction false} RowsBeforeFixed(rev: int, sweeps: seq<int>, c: nat)
    requires rev < 525
    decreases c
    ensures RowsBefore(rev, sweeps, c) == 800 * c
  {
    if c > 0 {
      RowsBeforeFixed(rev, sweeps, c - 1);
    }
  }

  /** One image row: the three colours of the 132 slices. */
  const RowSize := 132 * 3

  /** Whether the decoder can allocate camera `c`'s row array: `new Array(sweeps + 1)` refuses a negative length. */
  predicate RowArrayOk(rev: int, sweeps: seq<int>, c: nat)
  {
    rev < 525 || (c < |sweeps| && sweeps[c] >= -1)
  }

  /** The images of camera `c`: its row array allocated, then its rows read and dropped. */
  method SkipCameraImage(r: ByteReader, rev: int, sweeps: seq<int>, c: nat) returns (res: Result<()>)
    requires rev >= 525 ==> c < |sweeps|
    modifies r
    ensures res.Success? ==> RowArrayOk(rev, sweeps, c) && r.pos == old(r.pos) + RowSize * Rows(rev, sweeps, c)
    ensures res.Success? ==> Rows(rev, sweeps, c) == 0 || r.win.Within(old(r.pos), RowSize * Rows(rev, sweeps, c))
    ensures res.Failure? && res.error.InvalidArrayLength? ==> !RowArrayOk(rev, sweeps, c)
    ensures res.Failure? && !res.error.InvalidArrayLength? ==> res.error.ReadPastEnd? && Rows(rev, sweeps, c) > 0
    ensures res.Failure? && res.error.ReadPastEnd? ==> !r.win.Within(old(r.pos), RowSize * Rows(rev, sweeps, c))
  {
    var rows := 800;
    if rev >= 525 {
      rows := sweeps[c];
    }
    if rows + 1 < 0 {
      return Failure(InvalidArrayLength(rows + 1));
    }
    var image :- ReadByteArrays(r, rows, RowSize);
    res := Success(());
  }

  /** The images of cameras `0 .. cams - 1`, read and dropped. */
  method SkipImages(r: ByteReader, rev: int, sweeps: seq<int>, cams: nat) returns (res: Result<()>)
    requires rev >= 525 ==> cams <= |sweeps|
    modifies r
    ensures res.Success? ==> forall c :: 0 <= c < cams ==> RowArrayOk(rev, sweeps, c)
    ensures res.Success? ==> r.pos == old(r.pos) + RowSize * RowsBefore(rev, sweeps, cams)
    ensures res.Success? ==> RowsBefore(rev, sweeps, cams) == 0 || r.win.Within(old(r.pos), RowSize * RowsBefore(rev, sweeps, cams))
    ensures res.Failure? && res.error.InvalidArrayLength? ==> exists c :: 0 <= c < cams && !RowArrayOk(rev, sweeps, c)
    ensures res.Failure? && !res.error.InvalidArrayLength? ==> res.error.ReadPastEnd?
    ensures res.Failure? && res.error.ReadPastEnd? ==> !r.win.Within(old(r.pos), RowSize * RowsBefore(rev, sweeps, cams))
  {
    ghost var p0 := r.pos;
    var c := 0;
    while c < cams
      invariant 0 <= c <= cams
      invariant forall j :: 0 <= j < c ==> RowArrayOk(rev, sweeps, j)
      invariant r.pos == p0 + RowSize * RowsBefore(rev, sweeps, c)
      invariant RowsBefore(rev, sweeps, c) == 0 || r.win.Within(p0, RowSize * RowsBefore(rev, sweeps, c))
    {
      var image := SkipCameraImage(r, rev, sweeps, c);
      if image.Failure? {
        RowsBeforeMonotone(rev, sweeps, c + 1, cams);
        return Failure(image.error);
      }
      c := c + 1;
    }
    res := Success(());
  }

  /** Bytes of the inspection-head parameters at the end of the block. */
  function IHSize(rev: int): nat { if rev >= 505 then 10688 else if rev >= 500 then 7424 else 4976 }

  /** Bytes after the images: a Delphi alignment word before 500, 6400 per sweep camera, the head parameters. */
  function SliceTrailSize(rev: int, stored: nat): nat
  {
    (if rev < 500 then 4 else 0) + 6400 * SweepCams(rev, stored) + IHSize(rev)
  }

  /** Bytes of the block whose stored camera count is `stored` and whose sweep counts are `sweeps`. */
  function SliceDataSize(rev: int, stored: nat, sweeps: seq<int>): nat
  {
    4 + 4 * SweepCams(rev, stored) + 4 + RowSize * RowsBefore(rev, sweeps, SliceCams(rev, stored)) + SliceTrailSize(rev, stored)
  }

  /** The counts at the head of the block at `p`: the derived camera count, the sweep counts, the slice count. */
  function SliceHeadAt(w: Window, p: int, rev: int): SliceData
  {
    var stored := w.U32At(p);
    var sweeps := I32sAt(w, p + 4, SweepCams(rev, stored));
    var ip := if stored == 0 then LeadingPositive(sweeps, SliceCams(rev, stored)) else stored;
    SliceData(ip, sweeps, SliceCountOf(w.I32At(p + 4 + 4 * SweepCams(rev, stored))))
  }

  /** The head of the block; also returns the stored camera count the image loop runs on. */
  method ReadSliceHead(r: ByteReader, rev: int) returns (res: Result<(SliceData, nat)>)
    modifies r
    ensures res.Success? ==> r.win.Within(old(r.pos), 8 + 4 * SweepCams(rev, r.win.U32At(old(r.pos))))
    ensures res.Success? ==> r.pos == old(r.pos) + 8 + 4 * SweepCams(rev, r.win.U32At(old(r.pos)))
    ensures res.Success? ==> res.value == (SliceHeadAt(r.win, old(r.pos), rev), r.win.U32At(old(r.pos)))
    ensures res.Failure? ==> !r.win.Within(old(r.pos), 8 + 4 * SweepCams(rev, r.win.U32At(old(r.pos)))) && res.error.ReadPastEnd?
  {
    var stored :- r.ReadCardinal();
    var camCount := SliceCams(rev, stored);
    var sweepCamCount := SweepCams(rev, stored);
    var sweeps :- ReadIntegers(r, sweepCamCount);
    var ip := stored;
    if ip == 0 {
      ip := CountLiveCams(sweeps, camCount);
    }
    var sliceCount :- r.ReadInteger();
    if sliceCount == 0 {
      sliceCount := 128;
    }
    res := Success((SliceData(ip, sweeps, sliceCount), stored));
  }

  /** Where the block at `p` ends. */
  function SliceDataEnd(w: Window, p: int, rev: int): int
  {
    p + SliceDataSize(rev, w.U32At(p), SliceHeadAt(w, p, rev).sweepCount)
  }

  /**
   * Whether the decoder can allocate the arrays of the block at `p`: the
   * camera array of `camCount + 1` entries (at most 2^32 - 1) and every
   * camera's row array.
   */
  predicate SliceArraysOk(w: Window, p: int, rev: int)
  {
    var cams := SliceCams(rev, w.U32At(p));
    cams + 1 <= 0xFFFF_FFFF && forall c :: 0 <= c < cams ==> RowArrayOk(rev, SliceHeadAt(w, p, rev).sweepCount, c)
  }

  /**
   * `ReadSliceData2`. Fails like the decoder when the camera array or a
   * camera's row array cannot be allocated, or a read runs past the end.
   */
  method ReadSliceData2(r: ByteReader, rev: int) returns (res: Result<SliceData>)
    modifies r
    ensures res.Success? ==> res.value == SliceHeadAt(r.win, old(r.pos), rev)
    ensures res.Success? ==> r.pos == SliceDataEnd(r.win, old(r.pos), rev) && SliceArraysOk(r.win, old(r.pos), rev)
    ensures res.Failure? ==> res.error.ReadPastEnd? || (res.error.InvalidArrayLength? && !SliceArraysOk(r.win, old(r.pos), rev))
  {
    var head :- ReadSliceHead(r, rev);
    var stored := head.1;
    var camCount := SliceCams(rev, stored);
    if camCount + 1 > 0xFFFF_FFFF {
      return Failure(InvalidArrayLength(camCount + 1));
    }
    var images :- SkipImages(r, rev, head.0.sweepCount, camCount);
    if rev < 500 {
      r.IncOffset(4);
    }
    r.IncOffset(SweepCams(rev, stored) * 6400);
    if rev >= 505 {
      r.IncOffset(10688);
    } else if rev >= 500 {
      r.IncOffset(7424);
    } else {
      r.IncOffset(4976);
    }
    res := Success(head.0);
  }

  /** Before revision 525 the block has a fixed size: 961792, 1914636 and 3242736 bytes. */
  lemma SliceDataFixedSizes(rev: int, stored: nat, sweeps: seq<int>)
    requires rev < 525
    ensures rev < 500 ==> SliceDataSize(rev, stored, sweeps) == 961792
    ensures 500 <= rev < 505 ==> SliceDataSize(rev, stored, sweeps) == 1914636
    ensures 505 <= rev ==> SliceDataSize(rev, stored, sweeps) == 3242736
  {
    RowsBeforeFixed(rev, sweeps, TextureCams(rev));
  }

  /** From revision 525 the images take one row per positive sweep count of the stored cameras. */
  lemma SliceDataSizeCurrent(rev: int, stored: nat, sweeps: seq<int>)
    requires rev >= 525
    ensures SliceDataSize(rev, stored, sweeps) == 8 + 4 * stored + RowSize * RowsBefore(rev, sweeps, stored) + 6400 * stored + 10688
  {
  }

  /** A stored camera count is kept; a zero is replaced by the sweep-derived count, which is at most the cameras. */
  lemma SliceHeadCams(w: Window, p: int, rev: int)
    ensures w.U32At(p) != 0 ==> SliceHeadAt(w, p, rev).ipCamCount == w.U32At(p)
    ensures w.U32At(p) == 0 ==> SliceHeadAt(w, p, rev).ipCamCount <= SliceCams(rev, 0)
    ensures rev >= 525 && w.U32At(p) == 0 ==> SliceHeadAt(w, p, rev).ipCamCount == 0
    ensures SliceHeadAt(w, p, rev).sliceCount != 0
  {
  }
}
