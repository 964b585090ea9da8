/**
 * The byte cursor every decoder reads through: a window of `len` bytes that
 * starts at `base` in a shared buffer, and a position inside that window.
 * The primitive reader of the repository is not part of this model; this
 * module states the behaviour the decoders rely on: each read of width w
 * succeeds exactly when the w bytes at the position lie inside both the
 * window and the buffer, decodes them little-endian and advances the
 * position by w; a read that does not fit fails with the position and
 * width it was asked for.
 */
module Reader {
  import opened Wrappers
  import opened Bytes

  /** What a reader can see: the shared buffer, where its window starts, and the window's length. */
  datatype Window = Window(data: seq<uint8>, base: int, len: int) {

    /** How many bytes from the start of the window can be read: the window cut at the buffer's end. */
    function Avail(): int
    {
      if 0 <= base <= |data| then (if len < |data| - base then len else |data| - base) else -1
    }

    /** Whether `w` bytes at window position `p` can be read. */
    predicate Within(p: int, w: int)
    {
      0 <= p && 0 <= w && p + w <= Avail()
    }

    /** The `w` bytes at window position `p`, or zeros when they cannot be read. */
    function Slice(p: int, w: nat): (s: seq<uint8>)
      ensures |s| == w
      ensures Within(p, w) ==> s == data[base + p .. base + p + w]
    {
      if Within(p, w) then data[base + p .. base + p + w] else seq(w, _ => 0)
    }

    /** The byte at window position `p`, or zero outside the buffer. */
    function ByteAt(p: int): nat
    {
      if 0 <= base + p < |data| then data[base + p] as nat else 0
    }

    /** The unsigned little-endian value of the `n` bytes at window position `p`. */
    function LeAt(p: int, n: nat): nat
      decreases n
    {
      if n == 0 then 0 else ByteAt(p) + 0x100 * LeAt(p + 1, n - 1)
    }

    function U8At(p: int): nat { ByteAt(p) }
    function BoolAt(p: int): bool { ByteAt(p) != 0 }
    // The fixed widths are written out, not as calls of the recursive LeAt, so that
    // the decoders' contracts do not unfold a recursion; LeAtWidths links the two.
    function U16At(p: int): nat { ByteAt(p) + 0x100 * ByteAt(p + 1) }
    function I16At(p: int): int { Int16Of(U16At(p)) }
    function U32At(p: int): nat { U16At(p) + 0x1_0000 * U16At(p + 2) }
    function I32At(p: int): int { Int32Of(U32At(p)) }
    function U64At(p: int): nat { U32At(p) + 0x1_0000_0000 * U32At(p + 4) }
    function I64At(p: int): int { Int64Of(U64At(p)) }
    function F32At(p: int): Float32 { Float32(U32At(p)) }
    function F64At(p: int): Float64 { Float64(U64At(p)) }
  }

  /** Inside the window, the value at a position is the little-endian value of the bytes read there. */
  lemma {:induction false} LeAtBytes(w: Window, p: int, n: nat)
    requires w.Within(p, n)
    decreases n
    ensures w.LeAt(p, n) == LeBytes(w.Slice(p, n))
  {
    if n > 0 {
      LeAtBytes(w, p + 1, n - 1);
      assert w.Slice(p, n)[1..] == w.Slice(p + 1, n - 1);
    }
  }

  /** The written-out fixed widths are the little-endian values of 2, 4 and 8 bytes. */
  lemma LeAtWidths(w: Window, p: int)
    ensures w.LeAt(p, 2) == w.U16At(p)
    ensures w.LeAt(p, 4) == w.U32At(p)
    ensures w.LeAt(p, 8) == w.U64At(p)
  {
    LeAt2(w, p);
    LeAt4(w, p);
    LeAt8(w, p);
  }

  lemma LeAt2(w: Window, p: int)
    ensures w.LeAt(p, 2) == w.U16At(p)
  {
    assert w.LeAt(p, 2) == w.ByteAt(p) + 0x100 * w.LeAt(p + 1, 1);
    assert w.LeAt(p + 1, 1) == w.ByteAt(p + 1) + 0x100 * w.LeAt(p + 2, 0);
  }

  lemma LeAt4(w: Window, p: int)
    ensures w.LeAt(p, 4) == w.U32At(p)
  {
    assert w.LeAt(p, 4) == w.ByteAt(p) + 0x100 * w.LeAt(p + 1, 3);
    assert w.LeAt(p + 1, 3) == w.ByteAt(p + 1) + 0x100 * w.LeAt(p + 2, 2);
    assert w.LeAt(p + 2, 2) == w.ByteAt(p + 2) + 0x100 * w.LeAt(p + 3, 1);
    assert w.LeAt(p + 3, 1) == w.ByteAt(p + 3) + 0x100 * w.LeAt(p + 4, 0);
  }

  lemma LeAt8(w: Window, p: int)
    ensures w.LeAt(p, 8) == w.U64At(p)
  {
    assert w.LeAt(p, 8) == w.ByteAt(p) + 0x100 * w.LeAt(p + 1, 7);
    assert w.LeAt(p + 1, 7) == w.ByteAt(p + 1) + 0x100 * w.LeAt(p + 2, 6);
    assert w.LeAt(p + 2, 6) == w.ByteAt(p + 2) + 0x100 * w.LeAt(p + 3, 5);
    assert w.LeAt(p + 3, 5) == w.ByteAt(p + 3) + 0x100 * w.LeAt(p + 4, 4);
    assert w.LeAt(p + 4, 4) == w.ByteAt(p + 4) + 0x100 * w.LeAt(p + 5, 3);
    assert w.LeAt(p + 5, 3) == w.ByteAt(p + 5) + 0x100 * w.LeAt(p + 6, 2);
    assert w.LeAt(p + 6, 2) == w.ByteAt(p + 6) + 0x100 * w.LeAt(p + 7, 1);
    assert w.LeAt(p + 7, 1) == w.ByteAt(p + 7) + 0x100 * w.LeAt(p + 8, 0);
  }

  /** A read that ends inside the window means every shorter read from the same place fits too. */
  lemma WithinPrefix(w: Window, p: int, a: int, b: int)
    requires w.Within(p, b) && 0 <= a <= b
    ensures w.Within(p, a) && w.Within(p + a, b - a)
  {
  }

  /** The number of times `for (i = 1; i <= n; i++)` runs. */
  function Count(n: int): (c: nat)
    ensures c == 0 <==> n <= 0
    ensures n >= 0 ==> c == n
  {
    if n < 0 then 0 else n
  }

  class ByteReader {
    const win: Window
    var pos: int

    /** A reader over `len` bytes of `data` starting at `base`, positioned at the window's start. */
    constructor (data: seq<uint8>, base: int, len: int)
      ensures win == Window(data, base, len) && pos == 0
    {
      win := Window(data, base, len);
      pos := 0;
    }

    method ReadBytes(w: nat) returns (res: Result<seq<uint8>>)
      modifies this
      ensures res.Success? <==> win.Within(old(pos), w)
      ensures res.Success? ==> res.value == win.Slice(old(pos), w) && pos == old(pos) + w
      ensures res.Failure? ==> res.error.ReadPastEnd? && pos == old(pos)
    {
      if win.Within(pos, w) {
        res := Success(win.data[win.base + pos .. win.base + pos + w]);
        pos := pos + w;
      } else {
        res := Failure(ReadPastEnd(pos, w));
      }
    }

    method ReadByte() returns (res: Result<int>)
      modifies this
      ensures res.Success? <==> win.Within(old(pos), 1)
      ensures res.Success? ==> res.value == win.U8At(old(pos)) && pos == old(pos) + 1
      ensures res.Failure? ==> res.error.ReadPastEnd?
    {
      var b :- ReadBytes(1);
      res := Success(b[0] as int);
    }

    method ReadBoolean() returns (res: Result<bool>)
      modifies this
      ensures res.Success? <==> win.Within(old(pos), 1)
      ensures res.Success? ==> res.value == win.BoolAt(old(pos)) && pos == old(pos) + 1
      ensures res.Failure? ==> res.error.ReadPastEnd?
    {
      var b :- ReadBytes(1);
      res := Success(b[0] != 0);
    }

    method ReadSmallInt() returns (res: Result<int>)
      modifies this
      ensures res.Success? <==> win.Within(old(pos), 2)
      ensures res.Success? ==> res.value == win.I16At(old(pos)) && pos == old(pos) + 2
      ensures res.Failure? ==> res.error.ReadPastEnd?
    {
      var b :- ReadBytes(2);
      LeAtBytes(win, old(pos), 2);
      LeAtWidths(win, old(pos));
      res := Success(Int16Of(LeBytes(b)));
    }

    method ReadWord() returns (res: Result<int>)
      modifies this
      ensures res.Success? <==> win.Within(old(pos), 2)
      ensures res.Success? ==> res.value == win.U16At(old(pos)) && pos == old(pos) + 2
      ensures res.Failure? ==> res.error.ReadPastEnd?
    {
      var b :- ReadBytes(2);
      LeAtBytes(win, old(pos), 2);
      LeAtWidths(win, old(pos));
      res := Success(LeBytes(b));
    }

    method ReadInteger() returns (res: Result<int>)
      modifies this
      ensures res.Success? <==> win.Within(old(pos), 4)
      ensures res.Success? ==> res.value == win.I32At(old(pos)) && pos == old(pos) + 4
      ensures res.Failure? ==> res.error.ReadPastEnd? && pos == old(pos)
    {
      var b :- ReadBytes(4);
      LeAtBytes(win, old(pos), 4);
      LeAtWidths(win, old(pos));
      res := Success(Int32Of(LeBytes(b)));
    }

    method ReadCardinal() returns (res: Result<int>)
      modifies this
      ensures res.Success? <==> win.Within(old(pos), 4)
      ensures res.Success? ==> res.value == win.U32At(old(pos)) && pos == old(pos) + 4
      ensures res.Failure? ==> res.error.ReadPastEnd?
    {
      var b :- ReadBytes(4);
      LeAtBytes(win, old(pos), 4);
      LeAtWidths(win, old(pos));
      res := Success(LeBytes(b));
    }

    method ReadInt64() returns (res: Result<int>)
      modifies this
      ensures res.Success? <==> win.Within(old(pos), 8)
      ensures res.Success? ==> res.value == win.I64At(old(pos)) && pos == old(pos) + 8
      ensures res.Failure? ==> res.error.ReadPastEnd?
    {
      var b :- ReadBytes(8);
      LeAtBytes(win, old(pos), 8);
      LeAtWidths(win, old(pos));
      res := Success(Int64Of(LeBytes(b)));
    }

    method ReadUInt64() returns (res: Result<int>)
      modifies this
      ensures res.Success? <==> win.Within(old(pos), 8)
      ensures res.Success? ==> res.value == win.U64At(old(pos)) && pos == old(pos) + 8
      ensures res.Failure? ==> res.error.ReadPastEnd?
    {
      var b :- ReadBytes(8);
      LeAtBytes(win, old(pos), 8);
      LeAtWidths(win, old(pos));
      res := Success(LeBytes(b));
    }

    method ReadSingle() returns (res: Result<Float32>)
      modifies this
      ensures res.Success? <==> win.Within(old(pos), 4)
      ensures res.Success? ==> res.value == win.F32At(old(pos)) && pos == old(pos) + 4
      ensures res.Failure? ==> res.error.ReadPastEnd?
    {
      var b :- ReadBytes(4);
      LeAtBytes(win, old(pos), 4);
      LeAtWidths(win, old(pos));
      res := Success(Float32(LeBytes(b)));
    }

    method ReadDouble() returns (res: Result<Float64>)
      modifies this
      ensures res.Success? <==> win.Within(old(pos), 8)
      ensures res.Success? ==> res.value == win.F64At(old(pos)) && pos == old(pos) + 8
      ensures res.Failure? ==> res.error.ReadPastEnd?
    {
      var b :- ReadBytes(8);
      LeAtBytes(win, old(pos), 8);
      LeAtWidths(win, old(pos));
      res := Success(Float64(LeBytes(b)));
    }

    /** A Delphi TDateTime: an 8-byte double. */
    method ReadDateTime() returns (res: Result<Float64>)
      modifies this
      ensures res.Success? <==> win.Within(old(pos), 8)
      ensures res.Success? ==> res.value == win.F64At(old(pos)) && pos == old(pos) + 8
      ensures res.Failure? ==> res.error.ReadPastEnd?
    {
      res := ReadDouble();
    }

    /** A Delphi `string[n]`: one length byte and an n-byte slot, returned as the whole slot. */
    method ReadShortString(n: nat) returns (res: Result<seq<uint8>>)
      modifies this
      ensures res.Success? <==> win.Within(old(pos), n + 1)
      ensures res.Success? ==> res.value == win.Slice(old(pos), n + 1) && pos == old(pos) + n + 1
      ensures res.Failure? ==> res.error.ReadPastEnd?
    {
      res := ReadBytes(n + 1);
    }

    /** A Delphi `array of AnsiChar`: n bytes. */
    method ReadAnsiCharArray(n: nat) returns (res: Result<seq<uint8>>)
      modifies this
      ensures res.Success? <==> win.Within(old(pos), n)
      ensures res.Success? ==> res.value == win.Slice(old(pos), n) && pos == old(pos) + n
      ensures res.Failure? ==> res.error.ReadPastEnd?
    {
      res := ReadBytes(n);
    }

    /** A Delphi `array of Char`: n two-byte characters. */
    method ReadCharArray(n: nat) returns (res: Result<seq<uint8>>)
      modifies this
      ensures res.Success? <==> win.Within(old(pos), 2 * n)
      ensures res.Success? ==> res.value == win.Slice(old(pos), 2 * n) && pos == old(pos) + 2 * n
      ensures res.Failure? ==> res.error.ReadPastEnd?
    {
      res := ReadBytes(2 * n);
    }

    method ReadByteArray(n: nat) returns (res: Result<seq<uint8>>)
      modifies this
      ensures res.Success? <==> win.Within(old(pos), n)
      ensures res.Success? ==> res.value == win.Slice(old(pos), n) && pos == old(pos) + n
      ensures res.Failure? ==> res.error.ReadPastEnd?
    {
      res := ReadBytes(n);
    }

    /** Moves the position by `n` bytes, forward or back, without reading. */
    method IncOffset(n: int)
      modifies this
      ensures pos == old(pos) + n
    {
      pos := pos + n;
    }

    /** The position as an offset into the whole buffer. */
    method GetOffset() returns (offset: int)
      ensures offset == win.base + pos
    {
      offset := win.base + pos;
    }
  }
}
