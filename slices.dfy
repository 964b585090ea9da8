/**
 * The two parts at the end of a board record: the texture points and slice
 * images of the four camera sides (from revision 109), and the PLS values
 * (from revisions 120 and 506). Both are decoded in place by
 * `ReadOptBoardRecFileStream`; each side's blocks are those of the Texture
 * module (`readTexturePoints` and `ReadSliceData2`).
 */
module Slices {
  import opened Wrappers
  import opened Bytes
  import opened Reader
  import opened Arrays
  import opened Revision
  import opened Texture

  // ---------------------------------------------------------------------
  // The four sides: texture points, then slice data, of up, down, front and rear.
  // ---------------------------------------------------------------------

  datatype TextureSides = TextureSides(u: TexturePoints, d: TexturePoints, f: TexturePoints, r: TexturePoints)

  datatype SliceDataPair = SliceDataPair(first: SliceData, second: SliceData)

  datatype SliceDataSides = SliceDataSides(ud: SliceDataPair, fr: SliceDataPair)

  datatype BoardSlices = BoardSlices(texture: TextureSides, data: SliceDataSides)

  function TextureSidesAt(w: Window, q: int, rev: int): TextureSides
  {
    var n := TexturePointsSize(rev);
    TextureSides(TexturePointsAt(w, q), TexturePointsAt(w, q + n), TexturePointsAt(w, q + n + n), TexturePointsAt(w, q + n + n + n))
  }

  method ReadTextureSides(r: ByteReader, rev: int) returns (res: Result<TextureSides>)
    modifies r
    ensures res.Success? ==> r.pos == old(r.pos) + 4 * TexturePointsSize(rev) && res.value == TextureSidesAt(r.win, old(r.pos), rev)
    ensures res.Failure? ==> res.error.ReadPastEnd?
  {
    var u :- ReadTexturePoints(r, rev);
    var d :- ReadTexturePoints(r, rev);
    var f :- ReadTexturePoints(r, rev);
    var rr :- ReadTexturePoints(r, rev);
    res := Success(TextureSides(u, d, f, rr));
  }

  function SliceDataPairAt(w: Window, q: int, rev: int): SliceDataPair
  {
    SliceDataPair(SliceHeadAt(w, q, rev), SliceHeadAt(w, SliceDataEnd(w, q, rev), rev))
  }

  /** Whether the decoder can allocate the arrays of both blocks. */
  predicate PairArraysOk(w: Window, q: int, rev: int)
  {
    SliceArraysOk(w, q, rev) && SliceArraysOk(w, SliceDataEnd(w, q, rev), rev)
  }

  function SliceDataPairEnd(w: Window, q: int, rev: int): int
  {
    SliceDataEnd(w, SliceDataEnd(w, q, rev), rev)
  }

  method ReadSliceDataPair(r: ByteReader, rev: int) returns (res: Result<SliceDataPair>)
    modifies r
    ensures res.Success? ==> r.pos == SliceDataPairEnd(r.win, old(r.pos), rev) && res.value == SliceDataPairAt(r.win, old(r.pos), rev)
    ensures res.Success? ==> PairArraysOk(r.win, old(r.pos), rev)
    ensures res.Failure? ==> res.error.ReadPastEnd? || (res.error.InvalidArrayLength? && !PairArraysOk(r.win, old(r.pos), rev))
  {
    var a :- ReadSliceData2(r, rev);
    var b :- ReadSliceData2(r, rev);
    res := Success(SliceDataPair(a, b));
  }

  function SliceDataSidesAt(w: Window, q: int, rev: int): SliceDataSides
  {
    SliceDataSides(SliceDataPairAt(w, q, rev), SliceDataPairAt(w, SliceDataPairEnd(w, q, rev), rev))
  }

  function SliceDataSidesEnd(w: Window, q: int, rev: int): int
  {
    SliceDataPairEnd(w, SliceDataPairEnd(w, q, rev), rev)
  }

  predicate SidesArraysOk(w: Window, q: int, rev: int)
  {
    PairArraysOk(w, q, rev) && PairArraysOk(w, SliceDataPairEnd(w, q, rev), rev)
  }

  method ReadSliceDataSides(r: ByteReader, rev: int) returns (res: Result<SliceDataSides>)
    modifies r
    ensures res.Success? ==> r.pos == SliceDataSidesEnd(r.win, old(r.pos), rev) && res.value == SliceDataSidesAt(r.win, old(r.pos), rev)
    ensures res.Success? ==> SidesArraysOk(r.win, old(r.pos), rev)
    ensures res.Failure? ==> res.error.ReadPastEnd? || (res.error.InvalidArrayLength? && !SidesArraysOk(r.win, old(r.pos), rev))
  {
    var ud :- ReadSliceDataPair(r, rev);
    var fr :- ReadSliceDataPair(r, rev);
    res := Success(SliceDataSides(ud, fr));
  }

  /** Where the slice data of the part at `q` starts: after its size and the four texture blocks. */
  function SliceDataSidesPos(q: int, rev: int): int { q + 4 + 4 * TexturePointsSize(rev) }

  /** The part present from revision 109: a size and, when it is positive, the four sides. */
  function BoardSlicesAt(w: Window, q: int, rev: int): Option<BoardSlices>
  {
    if rev > 108 && w.I32At(q) > 0 then
      Some(BoardSlices(TextureSidesAt(w, q + 4, rev), SliceDataSidesAt(w, SliceDataSidesPos(q, rev), rev)))
    else None
  }

  function BoardSlicesEnd(w: Window, q: int, rev: int): int
  {
    if rev <= 108 then q
    else if w.I32At(q) > 0 then SliceDataSidesEnd(w, SliceDataSidesPos(q, rev), rev)
    else q + 4
  }

  /** Whether the decoder can allocate the slice arrays of the part at `q`; a part without sides has none. */
  predicate BoardSlicesArraysOk(w: Window, q: int, rev: int)
  {
    rev <= 108 || w.I32At(q) <= 0 || SidesArraysOk(w, SliceDataSidesPos(q, rev), rev)
  }

  method ReadBoardSlices(r: ByteReader, rev: int) returns (res: Result<Option<BoardSlices>>)
    modifies r
    ensures res.Success? ==> r.pos == BoardSlicesEnd(r.win, old(r.pos), rev) && res.value == BoardSlicesAt(r.win, old(r.pos), rev)
    ensures res.Success? ==> BoardSlicesArraysOk(r.win, old(r.pos), rev)
    ensures res.Failure? ==> res.error.ReadPastEnd? || (res.error.InvalidArrayLength? && !BoardSlicesArraysOk(r.win, old(r.pos), rev))
  {
    if rev <= 108 {
      return Success(None);
    }
    ghost var q := r.pos;
    var slcSize :- r.ReadInteger();
    if slcSize <= 0 {
      return Success(None);
    }
    var texture :- ReadTextureSides(r, rev);
    assert r.pos == SliceDataSidesPos(q, rev);
    var data :- ReadSliceDataSides(r, rev);
    res := Success(Some(BoardSlices(texture, data)));
  }

  // ---------------------------------------------------------------------
  // PLS values: a count, then entries of an index, a name and a double.
  // ---------------------------------------------------------------------

  /** The PLS part is stored from revisions 120 and 506 on. */
  predicate HasPls(rev: int) { Gate(rev, 119, 505) }

  /** Indices above this one all land on it. */
  const MaxPlsIndex := 100

  /** One entry, its index already capped; the name is 256 two-byte characters. */
  datatype PlsEntry = PlsEntry(idx: int, name: seq<uint8>, value: Float64)

  const PlsEntrySize := 2 + 512 + 8

  function PlsEntryAt(w: Window, p: int): (e: PlsEntry)
    ensures 0 <= e.idx <= MaxPlsIndex
  {
    var idx := w.U16At(p);
    PlsEntry(if idx < MaxPlsIndex then idx else MaxPlsIndex, w.Slice(p + 2, 512), w.F64At(p + 514))
  }

  function PlsEntryReader(w: Window): int -> PlsEntry { p => PlsEntryAt(w, p) }

  method ReadPlsEntry(r: ByteReader) returns (res: Result<PlsEntry>)
    modifies r
    ensures res.Success? ==> r.pos == old(r.pos) + PlsEntrySize && res.value == PlsEntryAt(r.win, old(r.pos))
    ensures res.Failure? ==> res.error.ReadPastEnd?
  {
    var idx :- r.ReadWord();
    // `Math.min(idx, 100)`.
    if idx > MaxPlsIndex {
      idx := MaxPlsIndex;
    }
    var name :- r.ReadCharArray(256);
    var value :- r.ReadDouble();
    res := Success(PlsEntry(idx, name, value));
  }

  /** The names the entries leave behind: a later entry overwrites an earlier one with the same index. */
  function PlsNamesOf(es: seq<PlsEntry>): map<int, seq<uint8>>
  {
    if |es| == 0 then map[] else PlsNamesOf(es[..|es| - 1])[es[|es| - 1].idx := es[|es| - 1].name]
  }

  function PlsValuesOf(es: seq<PlsEntry>): map<int, Float64>
  {
    if |es| == 0 then map[] else PlsValuesOf(es[..|es| - 1])[es[|es| - 1].idx := es[|es| - 1].value]
  }

  datatype BoardPls = BoardPls(nr: int, names: map<int, seq<uint8>>, values: map<int, Float64>)

  function PlsEntriesAt(w: Window, q: int, rev: int): seq<PlsEntry>
  {
    if HasPls(rev) then RunAt(PlsEntryReader(w), q + 2, PlsEntrySize, w.U16At(q)) else []
  }

  function BoardPlsAt(w: Window, q: int, rev: int): BoardPls
  {
    var es := PlsEntriesAt(w, q, rev);
    BoardPls(if HasPls(rev) then w.U16At(q) else 0, PlsNamesOf(es), PlsValuesOf(es))
  }

  function BoardPlsEnd(w: Window, q: int, rev: int): int
  {
    if HasPls(rev) then q + 2 + PlsEntrySize * w.U16At(q) else q
  }

  /** The `n` entries as the loop of `ReadOptBoardRecFileStream` stores them. */
  method ReadPlsEntries(r: ByteReader, n: nat) returns (res: Result<(map<int, seq<uint8>>, map<int, Float64>)>)
    modifies r
    ensures res.Success? ==> r.pos == old(r.pos) + PlsEntrySize * n
    ensures res.Success? ==> var es := RunAt(PlsEntryReader(r.win), old(r.pos), PlsEntrySize, n); res.value == (PlsNamesOf(es), PlsValuesOf(es))
    ensures res.Failure? ==> res.error.ReadPastEnd?
  {
    ghost var p0 := r.pos;
    ghost var acc: seq<PlsEntry> := [];
    var names: map<int, seq<uint8>> := map[];
    var values: map<int, Float64> := map[];
    var i := 0;
    while i < n
      invariant 0 <= i <= n
      invariant r.pos == p0 + i * PlsEntrySize
      invariant acc == RunAt(PlsEntryReader(r.win), p0, PlsEntrySize, i)
      invariant names == PlsNamesOf(acc) && values == PlsValuesOf(acc)
    {
      ghost var q := r.pos;
      var e :- ReadPlsEntry(r);
      RunAtStep(PlsEntryReader(r.win), p0, PlsEntrySize, i, q, e);
      assert (acc + [e])[..i] == acc;
      acc := acc + [e];
      names := names[e.idx := e.name];
      values := values[e.idx := e.value];
      i := i + 1;
    }
    res := Success((names, values));
  }

  method ReadBoardPls(r: ByteReader, rev: int) returns (res: Result<BoardPls>)
    modifies r
    ensures res.Success? ==> r.pos == BoardPlsEnd(r.win, old(r.pos), rev) && res.value == BoardPlsAt(r.win, old(r.pos), rev)
    ensures res.Failure? ==> res.error.ReadPastEnd?
  {
    if !HasPls(rev) {
      return Success(BoardPls(0, map[], map[]));
    }
    var nr :- r.ReadWord();
    var maps :- ReadPlsEntries(r, nr);
    res := Success(BoardPls(nr, maps.0, maps.1));
  }

  // ---------------------------------------------------------------------
  // Properties.
  // ---------------------------------------------------------------------

  /** The slice data of one side before revision 525, by scanner generation. */
  function FixedSliceDataSize(rev: int): nat
  {
    if rev < 500 then 961792 else if rev < 505 then 1914636 else 3242736
  }

  /**
   * Before revision 525 the part with sides takes a fixed number of bytes:
   * the size, four texture blocks and four slice-data blocks of fixed size.
   */
  lemma BoardSlicesFixedSize(w: Window, q: int, rev: int)
    requires 108 < rev < 525 && w.I32At(q) > 0
    ensures BoardSlicesEnd(w, q, rev) == q + 4 + 4 * TexturePointsSize(rev) + 4 * FixedSliceDataSize(rev)
  {
    var p0 := SliceDataSidesPos(q, rev);
    var p1 := SliceDataEnd(w, p0, rev);
    var p2 := SliceDataEnd(w, p1, rev);
    var p3 := SliceDataEnd(w, p2, rev);
    SliceDataFixedSizes(rev, w.U32At(p0), SliceHeadAt(w, p0, rev).sweepCount);
    SliceDataFixedSizes(rev, w.U32At(p1), SliceHeadAt(w, p1, rev).sweepCount);
    SliceDataFixedSizes(rev, w.U32At(p2), SliceHeadAt(w, p2, rev).sweepCount);
    SliceDataFixedSizes(rev, w.U32At(p3), SliceHeadAt(w, p3, rev).sweepCount);
  }

  /** An index holds a name exactly when some entry carries it. */
  lemma {:induction false} PlsNamesKeys(es: seq<PlsEntry>, k: int)
    ensures k in PlsNamesOf(es) <==> exists i :: 0 <= i < |es| && es[i].idx == k
  {
    if |es| > 0 {
      var init := es[..|es| - 1];
      PlsNamesKeys(init, k);
      if k in PlsNamesOf(init) {
        var i :| 0 <= i < |init| && init[i].idx == k;
        assert es[i].idx == k;
      }
      if exists i :: 0 <= i < |es| && es[i].idx == k {
        var i :| 0 <= i < |es| && es[i].idx == k;
        if i < |es| - 1 {
          assert init[i].idx == k;
        }
      }
    }
  }

  /** The name stored under an index is that of the last entry carrying it. */
  lemma {:induction false} PlsNamesLast(es: seq<PlsEntry>, j: nat)
    requires j < |es|
    requires forall l :: j < l < |es| ==> es[l].idx != es[j].idx
    ensures es[j].idx in PlsNamesOf(es) && PlsNamesOf(es)[es[j].idx] == es[j].name
  {
    if j < |es| - 1 {
      var init := es[..|es| - 1];
      assert init[j] == es[j];
      PlsNamesLast(init, j);
    }
  }

  /** The same for the values. */
  lemma {:induction false} PlsValuesLast(es: seq<PlsEntry>, j: nat)
    requires j < |es|
    requires forall l :: j < l < |es| ==> es[l].idx != es[j].idx
    ensures es[j].idx in PlsValuesOf(es) && PlsValuesOf(es)[es[j].idx] == es[j].value
  {
    if j < |es| - 1 {
      var init := es[..|es| - 1];
      assert init[j] == es[j];
      PlsValuesLast(init, j);
    }
  }

  /** Names and values are stored under the same indices. */
  lemma {:induction false} PlsSameIndices(es: seq<PlsEntry>)
    ensures PlsNamesOf(es).Keys == PlsValuesOf(es).Keys
  {
    if |es| > 0 {
      PlsSameIndices(es[..|es| - 1]);
    }
  }

  /** Every index of the PLS part is between 0 and 100, and is one that some stored entry carries. */
  lemma BoardPlsIndices(w: Window, q: int, rev: int, k: int)
    ensures var b := BoardPlsAt(w, q, rev);
      k in b.names <==> exists i :: 0 <= i < |PlsEntriesAt(w, q, rev)| && PlsEntriesAt(w, q, rev)[i].idx == k
    ensures k in BoardPlsAt(w, q, rev).names ==> 0 <= k <= MaxPlsIndex
    ensures !HasPls(rev) ==> BoardPlsAt(w, q, rev).names == map[]
  {
    var es := PlsEntriesAt(w, q, rev);
    PlsNamesKeys(es, k);
    if k in BoardPlsAt(w, q, rev).names {
      var i :| 0 <= i < |es| && es[i].idx == k;
      RunAtIndex(PlsEntryReader(w), q + 2, PlsEntrySize, w.U16At(q), i);
    }
  }
}
