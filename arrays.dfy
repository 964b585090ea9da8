/**
 * The counted loops the decoders use to fill an array with `n` reads of one
 * primitive, `for (k = 1; k <= n; k++) a[k] = reader.readX()`. JavaScript
 * arrays here start at index 1; the model's sequences start at 0, so
 * element k of the source is element k - 1 of the sequence.
 */
module Arrays {
  import opened Wrappers
  import opened Bytes
  import opened Reader

  /** `n` smallints stored back to back from `p`. */
  function I16sAt(w: Window, p: int, n: nat): (s: seq<int>)
    ensures |s| == n
  {
    if n == 0 then [] else I16sAt(w, p, n - 1) + [w.I16At(p + 2 * (n - 1))]
  }

  /** Element `j` of the run is the value stored `j` places after `p`. */
  lemma {:induction false} I16sAtIndex(w: Window, p: int, n: nat, j: nat)
    requires j < n
    decreases n
    ensures I16sAt(w, p, n)[j] == w.I16At(p + 2 * j)
  {
    if j < n - 1 {
      I16sAtIndex(w, p, n - 1, j);
    }
  }

  /** `n` integers stored back to back from `p`. */
  function I32sAt(w: Window, p: int, n: nat): (s: seq<int>)
    ensures |s| == n
  {
    if n == 0 then [] else I32sAt(w, p, n - 1) + [w.I32At(p + 4 * (n - 1))]
  }

  /** Element `j` of the run is the value stored `j` places after `p`. */
  lemma {:induction false} I32sAtIndex(w: Window, p: int, n: nat, j: nat)
    requires j < n
    decreases n
    ensures I32sAt(w, p, n)[j] == w.I32At(p + 4 * j)
  {
    if j < n - 1 {
      I32sAtIndex(w, p, n - 1, j);
    }
  }

  /** `n` singles stored back to back from `p`. */
  function F32sAt(w: Window, p: int, n: nat): (s: seq<Float32>)
    ensures |s| == n
  {
    if n == 0 then [] else F32sAt(w, p, n - 1) + [w.F32At(p + 4 * (n - 1))]
  }

  /** Element `j` of the run is the value stored `j` places after `p`. */
  lemma {:induction false} F32sAtIndex(w: Window, p: int, n: nat, j: nat)
    requires j < n
    decreases n
    ensures F32sAt(w, p, n)[j] == w.F32At(p + 4 * j)
  {
    if j < n - 1 {
      F32sAtIndex(w, p, n - 1, j);
    }
  }

  /** `n` byte blocks of `width` bytes stored back to back from `p`. */
  function SlicesAt(w: Window, p: int, n: nat, width: nat): (s: seq<seq<uint8>>)
    ensures |s| == n
  {
    if n == 0 then [] else SlicesAt(w, p, n - 1, width) + [w.Slice(p + width * (n - 1), width)]
  }

  /** Element `j` of the run is the value stored `j` places after `p`. */
  lemma {:induction false} SlicesAtIndex(w: Window, p: int, n: nat, width: nat, j: nat)
    requires j < n
    decreases n
    ensures SlicesAt(w, p, n, width)[j] == w.Slice(p + width * j, width)
  {
    if j < n - 1 {
      SlicesAtIndex(w, p, n - 1, width, j);
    }
  }

  method ReadSmallInts(r: ByteReader, n: int) returns (res: Result<seq<int>>)
    modifies r
    ensures res.Success? ==> Count(n) == 0 || r.win.Within(old(r.pos), 2 * Count(n))
    ensures res.Success? ==> r.pos == old(r.pos) + 2 * Count(n) && res.value == I16sAt(r.win, old(r.pos), Count(n))
    ensures res.Failure? ==> Count(n) > 0 && !r.win.Within(old(r.pos), 2 * Count(n)) && res.error.ReadPastEnd?
  {
    ghost var p0 := r.pos;
    var acc: seq<int> := [];
    var i := 0;
    while i < Count(n)
      invariant 0 <= i <= Count(n)
      invariant r.pos == p0 + 2 * i
      invariant i > 0 ==> r.win.Within(p0, 2 * i)
      invariant acc == I16sAt(r.win, p0, i)
    {
      var x :- r.ReadSmallInt();
      acc := acc + [x];
      i := i + 1;
    }
    res := Success(acc);
  }

  method ReadIntegers(r: ByteReader, n: int) returns (res: Result<seq<int>>)
    modifies r
    ensures res.Success? ==> Count(n) == 0 || r.win.Within(old(r.pos), 4 * Count(n))
    ensures res.Success? ==> r.pos == old(r.pos) + 4 * Count(n) && res.value == I32sAt(r.win, old(r.pos), Count(n))
    ensures res.Failure? ==> Count(n) > 0 && !r.win.Within(old(r.pos), 4 * Count(n)) && res.error.ReadPastEnd?
  {
    ghost var p0 := r.pos;
    var acc: seq<int> := [];
    var i := 0;
    while i < Count(n)
      invariant 0 <= i <= Count(n)
      invariant r.pos == p0 + 4 * i
      invariant i > 0 ==> r.win.Within(p0, 4 * i)
      invariant acc == I32sAt(r.win, p0, i)
    {
      var x :- r.ReadInteger();
      acc := acc + [x];
      i := i + 1;
    }
    res := Success(acc);
  }

  method ReadSingles(r: ByteReader, n: int) returns (res: Result<seq<Float32>>)
    modifies r
    ensures res.Success? ==> Count(n) == 0 || r.win.Within(old(r.pos), 4 * Count(n))
    ensures res.Success? ==> r.pos == old(r.pos) + 4 * Count(n) && res.value == F32sAt(r.win, old(r.pos), Count(n))
    ensures res.Failure? ==> Count(n) > 0 && !r.win.Within(old(r.pos), 4 * Count(n)) && res.error.ReadPastEnd?
  {
    ghost var p0 := r.pos;
    var acc: seq<Float32> := [];
    var i := 0;
    while i < Count(n)
      invariant 0 <= i <= Count(n)
      invariant r.pos == p0 + 4 * i
      invariant i > 0 ==> r.win.Within(p0, 4 * i)
      invariant acc == F32sAt(r.win, p0, i)
    {
      var x :- r.ReadSingle();
      acc := acc + [x];
      i := i + 1;
    }
    res := Success(acc);
  }

  /** `n` byte arrays of `width` bytes each, as the light-level and image loops read them. */
  method ReadByteArrays(r: ByteReader, n: int, width: nat) returns (res: Result<seq<seq<uint8>>>)
    modifies r
    ensures res.Success? ==> Count(n) == 0 || r.win.Within(old(r.pos), width * Count(n))
    ensures res.Success? ==> r.pos == old(r.pos) + width * Count(n) && res.value == SlicesAt(r.win, old(r.pos), Count(n), width)
    ensures res.Failure? ==> Count(n) > 0 && !r.win.Within(old(r.pos), width * Count(n)) && res.error.ReadPastEnd?
  {
    ghost var p0 := r.pos;
    var acc: seq<seq<uint8>> := [];
    var i := 0;
    while i < Count(n)
      invariant 0 <= i <= Count(n)
      invariant r.pos == p0 + width * i
      invariant i > 0 ==> r.win.Within(p0, width * i)
      invariant acc == SlicesAt(r.win, p0, i, width)
    {
      MulMonotone(width, i + 1, Count(n));
      var x :- r.ReadByteArray(width);
      acc := acc + [x];
      i := i + 1;
    }
    res := Success(acc);
  }

  /** A pair of smallints: an outline point, or a profile point of a thickness head. */
  datatype Point = Point(x: int, y: int)

  /** `n` points stored back to back from `p`, four bytes each. */
  function PointsAt(w: Window, p: int, n: nat): (s: seq<Point>)
    ensures |s| == n
  {
    if n == 0 then [] else PointsAt(w, p, n - 1) + [Point(w.I16At(p + 4 * (n - 1)), w.I16At(p + 4 * (n - 1) + 2))]
  }

  /** Point `j` is the pair of smallints `4 * j` bytes after `p`. */
  lemma {:induction false} PointsAtIndex(w: Window, p: int, n: nat, j: nat)
    requires j < n
    decreases n
    ensures PointsAt(w, p, n)[j] == Point(w.I16At(p + 4 * j), w.I16At(p + 4 * j + 2))
  {
    if j < n - 1 {
      PointsAtIndex(w, p, n - 1, j);
    }
  }

  /** `n` points, two smallints each. */
  method ReadPoints(r: ByteReader, n: int) returns (res: Result<seq<Point>>)
    modifies r
    ensures res.Success? ==> Count(n) == 0 || r.win.Within(old(r.pos), 4 * Count(n))
    ensures res.Success? ==> res.value == PointsAt(r.win, old(r.pos), Count(n)) && r.pos == old(r.pos) + 4 * Count(n)
    ensures res.Failure? ==> Count(n) > 0 && !r.win.Within(old(r.pos), 4 * Count(n)) && res.error.ReadPastEnd?
  {
    ghost var p0 := r.pos;
    var acc: seq<Point> := [];
    var j := 0;
    while j < Count(n)
      invariant 0 <= j <= Count(n)
      invariant r.pos == p0 + 4 * j
      invariant j > 0 ==> r.win.Within(p0, 4 * j)
      invariant acc == PointsAt(r.win, p0, j)
    {
      var x :- r.ReadSmallInt();
      var y :- r.ReadSmallInt();
      acc := acc + [Point(x, y)];
      j := j + 1;
    }
    res := Success(acc);
  }

  /** Three doubles stored one after the other from `q`. */
  function ThreeDoublesAt(w: Window, q: int): (Float64, Float64, Float64)
  {
    (w.F64At(q), w.F64At(q + 8), w.F64At(q + 16))
  }

  /** Three consecutive doubles: 24 bytes. */
  method ReadThreeDoubles(r: ByteReader) returns (res: Result<(Float64, Float64, Float64)>)
    modifies r
    ensures res.Success? ==> r.win.Within(old(r.pos), 24)
    ensures res.Success? ==> r.pos == old(r.pos) + 24 && res.value == ThreeDoublesAt(r.win, old(r.pos))
    ensures res.Failure? ==> !r.win.Within(old(r.pos), 24) && res.error.ReadPastEnd?
  {
    var x :- r.ReadDouble();
    var y :- r.ReadDouble();
    var z :- r.ReadDouble();
    res := Success((x, y, z));
  }

  /** `n` records `size` bytes apart from `p`, record `j` being what `at` decodes at its start. */
  function RunAt<T>(at: int -> T, p: int, size: nat, n: nat): (s: seq<T>)
    ensures |s| == n
  {
    seq(n, j => at(p + j * size))
  }

  /** Record `j` of a run is the one decoded `j` sizes after the start. */
  lemma RunAtIndex<T>(at: int -> T, p: int, size: nat, n: nat, j: nat)
    requires j < n
    ensures RunAt(at, p, size, n)[j] == at(p + j * size)
  {
  }

  /** Decoding the record where a run of `i` ends extends the run by that record. */
  lemma RunAtStep<T>(at: int -> T, p: int, size: nat, i: nat, q: int, x: T)
    requires q == p + i * size && x == at(q)
    ensures RunAt(at, p, size, i) + [x] == RunAt(at, p, size, i + 1)
  {
    var a, b := RunAt(at, p, size, i) + [x], RunAt(at, p, size, i + 1);
    forall j | 0 <= j < i + 1
      ensures a[j] == b[j]
    {
      if j == i {
        assert b[j] == at(p + i * size);
      }
    }
  }

  /**
   * Where record `i` of a chain from `p` starts when each record's size is
   * what `size` says of the record at that place.
   */
  function ChainPos(size: int -> int, p: int, i: nat): int
  {
    if i == 0 then p else ChainPos(size, p, i - 1) + size(ChainPos(size, p, i - 1))
  }

  /** The `n` records of a chain from `p`, each decoded by `at` where the one before ends. */
  function ChainAt<T>(at: int -> T, size: int -> int, p: int, n: nat): (s: seq<T>)
    ensures |s| == n
  {
    if n == 0 then [] else ChainAt(at, size, p, n - 1) + [at(ChainPos(size, p, n - 1))]
  }

  /** Decoding the record where a chain of `i` ends extends the chain by that record. */
  lemma ChainAtStep<T>(at: int -> T, size: int -> int, p: int, i: nat, q: int, x: T)
    requires q == ChainPos(size, p, i) && x == at(q)
    ensures ChainAt(at, size, p, i) + [x] == ChainAt(at, size, p, i + 1)
    ensures ChainPos(size, p, i + 1) == q + size(q)
  {
  }

  /** Record `j` of a chain is the one decoded where the `j` records before it end. */
  lemma {:induction false} ChainAtIndex<T>(at: int -> T, size: int -> int, p: int, n: nat, j: nat)
    requires j < n
    decreases n
    ensures ChainAt(at, size, p, n)[j] == at(ChainPos(size, p, j))
  {
    if j < n - 1 {
      ChainAtIndex(at, size, p, n - 1, j);
    }
  }

  /** When every record takes at least `m` bytes, `i - j` records after record `j` lie at least that many times `m` further on. */
  lemma {:induction false} ChainPosAtLeast(size: int -> int, p: int, i: nat, j: nat, m: nat)
    requires forall q :: size(q) >= m
    requires j <= i
    decreases i
    ensures ChainPos(size, p, j) + (i - j) * m <= ChainPos(size, p, i)
  {
    if j < i {
      ChainPosAtLeast(size, p, i - 1, j, m);
      assert (i - j) * m == (i - 1 - j) * m + m;
      assert size(ChainPos(size, p, i - 1)) >= m;
    }
  }

  /**
   * When every record takes at least `m` bytes, record `i` of a chain of
   * `n` is decoded at least `i` times `m` after the start and ends no later
   * than the chain.
   */
  lemma ChainLayout<T>(at: int -> T, size: int -> int, p: int, n: nat, i: nat, m: nat)
    requires forall q :: size(q) >= m
    requires i < n
    ensures ChainAt(at, size, p, n)[i] == at(ChainPos(size, p, i))
    ensures p + i * m <= ChainPos(size, p, i)
    ensures ChainPos(size, p, i) + size(ChainPos(size, p, i)) <= ChainPos(size, p, n)
  {
    ChainAtIndex(at, size, p, n, i);
    ChainPosAtLeast(size, p, i, 0, m);
    ChainPosAtLeast(size, p, n, i + 1, 0);
  }

  /** Record `i` of a run of records `size` bytes apart whose reads end `last` bytes in. */
  lemma StrideStep(size: nat, last: nat, i: nat, n: nat)
    requires last <= size && i < n
    ensures (i + 1 - 1) * size + last == i * size + last
    ensures i > 0 ==> (i - 1) * size + last <= i * size + last
    ensures i * size + last <= (n - 1) * size + last
    ensures (i + 1) * size == i * size + size
  {
    MulMonotone(size, i, n - 1);
    if i > 0 {
      MulMonotone(size, i - 1, i);
    }
    assert (i + 1) * size == i * size + 1 * size;
  }

  /** Multiplying by a natural number keeps the order; one more factor adds one more `a`. */
  lemma {:induction false} MulMonotone(a: nat, b: nat, c: nat)
    requires b <= c
    decreases c - b
    ensures a * b <= a * c && (b > 0 ==> a * (b - 1) + a == a * b)
  {
    if b < c {
      MulMonotone(a, b, c - 1);
      assert a * (c - 1) + a == a * c;
    }
    if b > 0 {
      assert a * (b - 1) + a * 1 == a * b;
    }
  }
}
