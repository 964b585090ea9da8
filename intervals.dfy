/**
 * The quality-interval limits of a board record (readQFI): for every grading
 * feature a list of intervals (ReadOneQIntervs), or six of them, one per face
 * and edge (ReadQI6). Which features a file stores depends on its revision; a
 * feature it does not store takes a placeholder without consuming bytes.
 *
 * The decoder assigns the features one after the other in a fixed order; the
 * model lists that order once, as a table of field descriptions (QfiTable),
 * and ReadQFI walks the table, so the result is the list of the features'
 * values in table order.
 */
module Intervals {
  import opened Wrappers
  import opened Reader
  import opened Revision
  import opened Defects

  // ---------------------------------------------------------------------
  // ReadOneQIntervs and ReadQI6.
  // ---------------------------------------------------------------------

  datatype Interv = Interv(x1: int, x2: int)

  /**
   * One feature's intervals as read, or the `{ivNr: 0}` object the decoder
   * builds for the open-sided features a revision does not store.
   */
  datatype QIntervs = QIntervs(ivNr: int, intervs: seq<Interv>, overlap: bool) | NoIntervs

  /** The interval count a QIntervs object reports. */
  function IvNr(q: QIntervs): int
  {
    if q.QIntervs? then q.ivNr else 0
  }

  /** `n` intervals of two smallints each, stored from `p`. */
  function IntervsAt(w: Window, p: int, n: nat): (s: seq<Interv>)
    ensures |s| == n
  {
    if n == 0 then [] else IntervsAt(w, p, n - 1) + [Interv(w.I16At(p + 4 * (n - 1)), w.I16At(p + 4 * (n - 1) + 2))]
  }

  function QIntervsAt(w: Window, p: int): QIntervs
  {
    var n := w.I32At(p);
    QIntervs(n, IntervsAt(w, p + 4, Count(n)), w.BoolAt(p + 4 + 4 * Count(n)))
  }

  /** Bytes of a QIntervs as read: the count, four per interval, the overlap flag. */
  function QSize(q: QIntervs): nat
  {
    if q.QIntervs? then 4 + 4 * |q.intervs| + 1 else 0
  }

  /** The intervals of one feature. */
  method ReadIntervs(r: ByteReader, n: int) returns (res: Result<seq<Interv>>)
    modifies r
    ensures res.Success? ==> Count(n) == 0 || r.win.Within(old(r.pos), 4 * Count(n))
    ensures res.Success? ==> res.value == IntervsAt(r.win, old(r.pos), Count(n)) && r.pos == old(r.pos) + 4 * Count(n)
    ensures res.Failure? ==> Count(n) > 0 && !r.win.Within(old(r.pos), 4 * Count(n)) && res.error.ReadPastEnd?
  {
    ghost var p0 := r.pos;
    var acc: seq<Interv> := [];
    var i := 0;
    while i < Count(n)
      invariant 0 <= i <= Count(n)
      invariant r.pos == p0 + 4 * i
      invariant i > 0 ==> r.win.Within(p0, 4 * i)
      invariant acc == IntervsAt(r.win, p0, i)
    {
      var x1 :- r.ReadSmallInt();
      var x2 :- r.ReadSmallInt();
      acc := acc + [Interv(x1, x2)];
      i := i + 1;
    }
    res := Success(acc);
  }

  /** `ReadOneQIntervs`: 4 + 4 * ivNr + 1 bytes (no intervals for a count that is not positive). */
  method ReadOneQIntervs(r: ByteReader) returns (res: Result<QIntervs>)
    modifies r
    ensures res.Success? ==> r.win.Within(old(r.pos), 5 + 4 * Count(r.win.I32At(old(r.pos))))
    ensures res.Success? ==> res.value == QIntervsAt(r.win, old(r.pos))
    ensures res.Success? ==> r.pos == old(r.pos) + 5 + 4 * Count(r.win.I32At(old(r.pos)))
    ensures res.Success? ==> r.pos == old(r.pos) + QSize(res.value)
    ensures res.Failure? ==> !r.win.Within(old(r.pos), 5 + 4 * Count(r.win.I32At(old(r.pos)))) && res.error.ReadPastEnd?
  {
    var ivNr :- r.ReadInteger();
    var intervs :- ReadIntervs(r, ivNr);
    var overlap :- r.ReadBoolean();
    res := Success(QIntervs(ivNr, intervs, overlap));
  }

  datatype QI6 = QI6(face1: QIntervs, face2: QIntervs, front1: QIntervs, rear1: QIntervs, front2: QIntervs, rear2: QIntervs)

  /** Bytes of a QI6 as read. */
  function QI6Size(q: QI6): nat
  {
    QSize(q.face1) + QSize(q.face2) + QSize(q.front1) + QSize(q.rear1) + QSize(q.front2) + QSize(q.rear2)
  }

  /** Three QIntervs stored back to back from `p`. */
  function QThreeAt(w: Window, p: int): (QIntervs, QIntervs, QIntervs)
  {
    var a := QIntervsAt(w, p);
    var b := QIntervsAt(w, p + QSize(a));
    (a, b, QIntervsAt(w, p + QSize(a) + QSize(b)))
  }

  function QThreeSize(t: (QIntervs, QIntervs, QIntervs)): nat { QSize(t.0) + QSize(t.1) + QSize(t.2) }

  /** Six QIntervs stored back to back from `p`, in the order face 1, face 2, front 1, rear 1, front 2, rear 2. */
  function QI6At(w: Window, p: int): QI6
  {
    var a := QThreeAt(w, p);
    QI6Of(a, QThreeAt(w, p + QThreeSize(a)))
  }

  /** The QI6 of two triples. */
  function QI6Of(a: (QIntervs, QIntervs, QIntervs), b: (QIntervs, QIntervs, QIntervs)): (q: QI6)
    ensures QI6Size(q) == QThreeSize(a) + QThreeSize(b)
  {
    QI6(a.0, a.1, a.2, b.0, b.1, b.2)
  }

  /** Three QIntervs in a row: the faces and the first front, or the first rear and the second edge pair. */
  method ReadQThree(r: ByteReader) returns (res: Result<(QIntervs, QIntervs, QIntervs)>)
    modifies r
    ensures res.Success? ==> res.value == QThreeAt(r.win, old(r.pos)) && r.pos == old(r.pos) + QThreeSize(res.value)
    ensures res.Failure? ==> res.error.ReadPastEnd?
  {
    var a :- ReadOneQIntervs(r);
    var b :- ReadOneQIntervs(r);
    var c :- ReadOneQIntervs(r);
    res := Success((a, b, c));
  }

  /** `ReadQI6`: six QIntervs in the order face 1, face 2, front 1, rear 1, front 2, rear 2. */
  method ReadQI6(r: ByteReader) returns (res: Result<QI6>)
    modifies r
    ensures res.Success? ==> res.value == QI6At(r.win, old(r.pos)) && r.pos == old(r.pos) + QI6Size(res.value)
    ensures res.Failure? ==> res.error.ReadPastEnd?
  {
    var a :- ReadQThree(r);
    var b :- ReadQThree(r);
    res := Success(QI6Of(a, b));
  }

  /** `CopyToQI6`: the same intervals in all six slots. */
  function CopyToQI6(source: QIntervs): (q: QI6)
    ensures q.face1 == q.face2 == q.front1 == q.rear1 == q.front2 == q.rear2 == source
  {
    QI6(source, source, source, source, source, source)
  }

  /** A QI6 read takes at least 30 bytes: six counts and six flags. */
  lemma QI6SizeAtLeast(w: Window, p: int)
    ensures QI6Size(QI6At(w, p)) >= 30
  {
  }

  // ---------------------------------------------------------------------
  // The field table of readQFI.
  // ---------------------------------------------------------------------

  /** A feature is one QIntervs or a QI6. */
  datatype Shape = OneShape | SixShape

  /** When a revision stores a feature. */
  datatype When =
    | Always
    | After(k: int)                      // revisions above k
    | Dual(legacy: int, current: int)    // the two-range gate: above `current`, or 500-less revisions above `legacy`
    | BlueStainGrades                    // revisions 99, 100 and above 106

  /** What a feature a revision does not store becomes. */
  datatype Otherwise =
    | NoFallback                         // always stored
    | LikeXLim                           // the XLim intervals (copied to six slots for a QI6)
    | LikeEntry(k: nat)                  // the value of the table's entry k
    | ZeroIntervs                        // the `{ivNr: 0}` object

  datatype FieldSpec = FieldSpec(shape: Shape, when: When, otherwise: Otherwise)

  datatype QValue = One(q: QIntervs) | Six(six: QI6)

  predicate Stored(rev: int, when: When)
  {
    match when
    case Always => true
    case After(k) => rev > k
    case Dual(legacy, current) => Gate(rev, legacy, current)
    case BlueStainGrades => GradesBlueStain(rev)
  }

  /** Features 0-11: the dimension and wane features. */
  const QfiSizes: seq<FieldSpec> := [
    FieldSpec(OneShape, Always, NoFallback),                   // 0 XLim
    FieldSpec(OneShape, Always, NoFallback),                   // 1 LowW
    FieldSpec(OneShape, Always, NoFallback),                   // 2 HiW
    FieldSpec(OneShape, Always, NoFallback),                   // 3 WaneWiF
    FieldSpec(OneShape, Always, NoFallback),                   // 4 WaneWiR
    FieldSpec(OneShape, Always, NoFallback),                   // 5 Wane2S
    FieldSpec(OneShape, Always, NoFallback),                   // 6 WaneDpF
    FieldSpec(OneShape, Always, NoFallback),                   // 7 WaneDpR
    FieldSpec(OneShape, Always, NoFallback),                   // 8 WaneLenF
    FieldSpec(OneShape, Always, NoFallback),                   // 9 WaneLenR
    FieldSpec(OneShape, Always, NoFallback),                   // 10 WaneLen2S
    FieldSpec(OneShape, Always, NoFallback)                    // 11 SSLen
  ]

  /** Features 12-25: the knot, pitch and bark features. */
  const QfiKnots: seq<FieldSpec> := [
    FieldSpec(SixShape, Dual(135, 523), LikeXLim),             // 12 KntDmSound
    FieldSpec(SixShape, Dual(135, 523), LikeXLim),             // 13 KntDmDead
    FieldSpec(SixShape, Dual(135, 523), LikeXLim),             // 14 KntDmBark
    FieldSpec(SixShape, Always, NoFallback),                   // 15 KntDm
    FieldSpec(SixShape, Always, NoFallback),                   // 16 KntOS
    FieldSpec(SixShape, Always, NoFallback),                   // 17 KntSumAll
    FieldSpec(SixShape, Always, NoFallback),                   // 18 KntSumDead
    FieldSpec(SixShape, Always, NoFallback),                   // 19 KntSumUnsound
    FieldSpec(SixShape, Always, NoFallback),                   // 20 KntSumHole
    FieldSpec(SixShape, Always, NoFallback),                   // 21 KntSumMaxNr
    FieldSpec(SixShape, Always, NoFallback),                   // 22 PitchDm
    FieldSpec(SixShape, Always, NoFallback),                   // 23 PitchSum
    FieldSpec(SixShape, Always, NoFallback),                   // 24 BarkDm
    FieldSpec(SixShape, Always, NoFallback)                    // 25 BarkSum
  ]

  /** Features 26-32: the split and shake features. */
  const QfiSplits: seq<FieldSpec> := [
    FieldSpec(OneShape, Always, NoFallback),                   // 26 Split1
    FieldSpec(OneShape, Always, NoFallback),                   // 27 Split2
    FieldSpec(OneShape, After(66), LikeXLim),                  // 28 ShakeSlope
    FieldSpec(OneShape, Dual(132, 519), LikeEntry(26)),        // 29 EndSplit1
    FieldSpec(OneShape, Dual(132, 519), LikeEntry(27)),        // 30 EndSplit2
    FieldSpec(OneShape, Dual(132, 519), LikeXLim),             // 31 EdgeShakesOnFace1
    FieldSpec(OneShape, Dual(132, 519), LikeXLim)              // 32 EdgeShakesOnFace2
  ]

  /** Features 33-41: the stain and rot features. */
  const QfiStains: seq<FieldSpec> := [
    FieldSpec(SixShape, Always, NoFallback),                   // 33 BlueStain
    FieldSpec(OneShape, BlueStainGrades, LikeXLim),            // 34 HeavyBluestain1
    FieldSpec(OneShape, BlueStainGrades, LikeXLim),            // 35 HeavyBluestain2
    FieldSpec(SixShape, Always, NoFallback),                   // 36 Rot
    FieldSpec(OneShape, Dual(127, 513), LikeXLim),             // 37 DarkRot1
    FieldSpec(OneShape, Dual(127, 513), LikeXLim),             // 38 DarkRot2
    FieldSpec(SixShape, After(113), LikeXLim),                 // 39 Mold
    FieldSpec(SixShape, After(37), LikeXLim),                  // 40 Speck
    FieldSpec(SixShape, After(37), LikeXLim)                   // 41 Redstain
  ]

  /** Features 42-50: the skip, saw step and warp features. */
  const QfiShape: seq<FieldSpec> := [
    FieldSpec(OneShape, After(35), LikeXLim),                  // 42 PinWorms
    FieldSpec(OneShape, After(33), LikeXLim),                  // 43 SkipW
    FieldSpec(OneShape, After(33), LikeXLim),                  // 44 SkipT
    FieldSpec(OneShape, After(33), LikeXLim),                  // 45 SkipRfns
    FieldSpec(OneShape, After(40), LikeXLim),                  // 46 SawStep1
    FieldSpec(OneShape, After(40), LikeXLim),                  // 47 SawStep2
    FieldSpec(OneShape, Always, NoFallback),                   // 48 Bow
    FieldSpec(OneShape, Always, NoFallback),                   // 49 Crook
    FieldSpec(OneShape, Always, NoFallback)                    // 50 Twist
  ]

  /** Features 51-64: the features later revisions added. */
  const QfiLater: seq<FieldSpec> := [
    FieldSpec(OneShape, After(45), LikeXLim),                  // 51 MachineBite
    FieldSpec(OneShape, After(45), LikeXLim),                  // 52 SlopeOfGrain
    FieldSpec(OneShape, After(47), LikeXLim),                  // 53 LowTh
    FieldSpec(OneShape, After(47), LikeXLim),                  // 54 HiTh
    FieldSpec(OneShape, After(57), LikeXLim),                  // 55 Sawcut
    FieldSpec(OneShape, After(57), LikeXLim),                  // 56 DecayEnd
    FieldSpec(OneShape, After(60), LikeXLim),                  // 57 MSR
    FieldSpec(OneShape, After(60), LikeXLim),                  // 58 MoistContent
    FieldSpec(OneShape, After(83), LikeXLim),                  // 59 KntEndZone
    FieldSpec(OneShape, After(83), LikeXLim),                  // 60 KntSKR
    FieldSpec(OneShape, After(84), LikeXLim),                  // 61 MinAltQ
    FieldSpec(OneShape, After(88), LikeXLim),                  // 62 SapwDecay
    FieldSpec(OneShape, After(109), LikeXLim),                 // 63 Pith
    FieldSpec(SixShape, Dual(122, 508), LikeXLim)              // 64 Freckles
  ]

  /** Features 65-73: the open-sided features. */
  const QfiOpenSided: seq<FieldSpec> := [
    FieldSpec(OneShape, Dual(116, 500), ZeroIntervs),          // 65 OSWaneWiF
    FieldSpec(OneShape, Dual(116, 500), ZeroIntervs),          // 66 OSWaneWiR
    FieldSpec(OneShape, Dual(116, 500), ZeroIntervs),          // 67 OSWaneW2S
    FieldSpec(OneShape, Dual(116, 500), ZeroIntervs),          // 68 OSWaneDpF
    FieldSpec(OneShape, Dual(116, 500), ZeroIntervs),          // 69 OSWaneDpR
    FieldSpec(OneShape, Dual(123, 509), ZeroIntervs),          // 70 OSLowW
    FieldSpec(OneShape, Dual(123, 509), ZeroIntervs),          // 71 OSHiW
    FieldSpec(OneShape, Dual(123, 509), ZeroIntervs),          // 72 OSLowTh
    FieldSpec(OneShape, Dual(123, 509), ZeroIntervs)           // 73 OSHiTh
  ]

  /** Features 74-75: the end features. */
  const QfiEnds: seq<FieldSpec> := [
    FieldSpec(OneShape, Dual(129, 515), LikeXLim),             // 74 EndSpy
    FieldSpec(OneShape, Dual(130, 518), LikeXLim)              // 75 TopBreak
  ]

  /** The 76 features in the order readQFI assigns them. */
  const QfiTable: seq<FieldSpec> := QfiSizes + QfiKnots + QfiSplits + QfiStains + QfiShape + QfiLater + QfiOpenSided + QfiEnds



  /** The XLim intervals among the values assigned so far (XLim is the first feature). */
  function XLimOf(v: seq<QValue>): QIntervs
  {
    if |v| > 0 && v[0].One? then v[0].q else NoIntervs
  }

  /** The placeholder of a feature the revision does not store, given the values assigned before it. */
  function FallbackOf(v: seq<QValue>, f: FieldSpec): QValue
  {
    match f.otherwise
    case LikeXLim => if f.shape == SixShape then Six(CopyToQI6(XLimOf(v))) else One(XLimOf(v))
    case LikeEntry(k) => if k < |v| then v[k] else One(NoIntervs)
    case ZeroIntervs => One(NoIntervs)
    case NoFallback => One(NoIntervs)
  }

  function ValueAt(w: Window, p: int, shape: Shape): QValue
  {
    if shape == OneShape then One(QIntervsAt(w, p)) else Six(QI6At(w, p))
  }

  /** Reading a feature of a given shape from a window, as a function of the position. */
  function Reading(w: Window): (int, Shape) -> QValue
  {
    (q: int, shape: Shape) => ValueAt(w, q, shape)
  }

  /** Bytes of a value as read. */
  function ValueSize(v: QValue): nat
  {
    if v.One? then QSize(v.q) else QI6Size(v.six)
  }

  /**
   * One step of the walk: the values so far and where their bytes end,
   * extended by feature `f`, read with `read` when the revision stores it.
   */
  function FieldStep(read: (int, Shape) -> QValue, prev: (seq<QValue>, int), rev: int, f: FieldSpec): (seq<QValue>, int)
  {
    if Stored(rev, f.when) then
      var v := read(prev.1, f.shape);
      (prev.0 + [v], prev.1 + ValueSize(v))
    else
      (prev.0 + [FallbackOf(prev.0, f)], prev.1)
  }

  /**
   * The values of the first `n` features of `fs`, read from `p` on with
   * `read`, and where their bytes end.
   */
  function FieldsAt(read: (int, Shape) -> QValue, p: int, rev: int, fs: seq<FieldSpec>, n: nat): (res: (seq<QValue>, int))
    requires n <= |fs|
    ensures |res.0| == n
  {
    if n == 0 then ([], p) else FieldStep(read, FieldsAt(read, p, rev, fs, n - 1), rev, fs[n - 1])
  }

  /** A feature the revision stores: one QIntervs or a QI6, as its shape says. */
  method ReadValue(r: ByteReader, shape: Shape) returns (res: Result<QValue>)
    modifies r
    ensures res.Success? ==> res.value == ValueAt(r.win, old(r.pos), shape) && r.pos == old(r.pos) + ValueSize(res.value)
    ensures res.Failure? ==> res.error.ReadPastEnd?
  {
    if shape == OneShape {
      var q :- ReadOneQIntervs(r);
      res := Success(One(q));
    } else {
      var q6 :- ReadQI6(r);
      res := Success(Six(q6));
    }
  }

  /** One feature, read or given its placeholder. */
  method ReadField(r: ByteReader, rev: int, f: FieldSpec, before: seq<QValue>) returns (res: Result<QValue>)
    modifies r
    ensures res.Success? ==> (before + [res.value], r.pos) == FieldStep(Reading(r.win), (before, old(r.pos)), rev, f)
    ensures res.Failure? ==> Stored(rev, f.when) && res.error.ReadPastEnd?
  {
    if Stored(rev, f.when) {
      res := ReadValue(r, f.shape);
      assert res.Success? ==> res.value == Reading(r.win)(old(r.pos), f.shape);
    } else {
      res := Success(FallbackOf(before, f));
    }
  }

  /** The features of `fs` in order. */
  method ReadFields(r: ByteReader, rev: int, fs: seq<FieldSpec>) returns (res: Result<seq<QValue>>)
    modifies r
    ensures res.Success? ==> (res.value, r.pos) == FieldsAt(Reading(r.win), old(r.pos), rev, fs, |fs|)
    ensures res.Failure? ==> res.error.ReadPastEnd?
  {
    ghost var p0 := r.pos;
    var acc: seq<QValue> := [];
    var i := 0;
    while i < |fs|
      invariant 0 <= i <= |fs|
      invariant (acc, r.pos) == FieldsAt(Reading(r.win), p0, rev, fs, i)
    {
      var v :- ReadField(r, rev, fs[i], acc);
      acc := acc + [v];
      i := i + 1;
    }
    res := Success(acc);
  }

  // ---------------------------------------------------------------------
  // readQFI.
  // ---------------------------------------------------------------------

  /** The extended reasons and the features in table order. */
  datatype QFI = QFI(extReasons: int, fields: seq<QValue>)

  /** Bytes of the extended reasons: an integer above 89, a word above 49, a byte above 38, none before. */
  function ExtReasonsSize(rev: int): nat
  {
    if rev > 89 then 4 else if rev > 49 then 2 else if rev > 38 then 1 else 0
  }

  function ExtReasonsAt(w: Window, p: int, rev: int): int
  {
    if rev > 89 then w.I32At(p) else if rev > 49 then w.U16At(p) else if rev > 38 then w.U8At(p) else 0
  }

  method ReadExtReasons(r: ByteReader, rev: int) returns (res: Result<int>)
    modifies r
    ensures res.Success? <==> ExtReasonsSize(rev) == 0 || r.win.Within(old(r.pos), ExtReasonsSize(rev))
    ensures res.Success? ==> res.value == ExtReasonsAt(r.win, old(r.pos), rev) && r.pos == old(r.pos) + ExtReasonsSize(rev)
    ensures res.Failure? ==> res.error.ReadPastEnd?
  {
    if rev > 89 {
      res := r.ReadInteger();
    } else if rev > 49 {
      res := r.ReadWord();
    } else if rev > 38 {
      res := r.ReadByte();
    } else {
      res := Success(0);
    }
  }

  function QfiAt(w: Window, p: int, rev: int): QFI
  {
    QFI(ExtReasonsAt(w, p, rev), FieldsAt(Reading(w), p + ExtReasonsSize(rev), rev, QfiTable, |QfiTable|).0)
  }

  /** Where the block at `p` ends. */
  function QfiEnd(w: Window, p: int, rev: int): int
  {
    FieldsAt(Reading(w), p + ExtReasonsSize(rev), rev, QfiTable, |QfiTable|).1
  }

  /** `readQFI`. */
  method ReadQFI(r: ByteReader, rev: int) returns (res: Result<QFI>)
    modifies r
    ensures res.Success? ==> res.value == QfiAt(r.win, old(r.pos), rev) && r.pos == QfiEnd(r.win, old(r.pos), rev)
    ensures res.Failure? ==> res.error.ReadPastEnd?
  {
    var ext :- ReadExtReasons(r, rev);
    var fields :- ReadFields(r, rev, QfiTable);
    res := Success(QFI(ext, fields));
  }

  // ---------------------------------------------------------------------
  // What the table walk gives each feature.
  // ---------------------------------------------------------------------

  /** Later features do not change the values of earlier ones. */
  lemma {:induction false} FieldsAtPrefix(read: (int, Shape) -> QValue, p: int, rev: int, fs: seq<FieldSpec>, i: nat, n: nat)
    requires i <= n <= |fs|
    decreases n
    ensures FieldsAt(read, p, rev, fs, n).0[..i] == FieldsAt(read, p, rev, fs, i).0
    ensures FieldsAt(read, p, rev, fs, i).1 <= FieldsAt(read, p, rev, fs, n).1
  {
    if i < n {
      FieldsAtPrefix(read, p, rev, fs, i, n - 1);
      assert FieldsAt(read, p, rev, fs, n).0[..n - 1] == FieldsAt(read, p, rev, fs, n - 1).0;
      assert FieldsAt(read, p, rev, fs, n).0[..i] == FieldsAt(read, p, rev, fs, n).0[..n - 1][..i];
    }
  }

  /**
   * Feature `i`: read where the features before it end when the revision
   * stores it, and then it takes bytes; otherwise its placeholder, and it
   * takes none.
   */
  lemma FieldsAtEntry(read: (int, Shape) -> QValue, p: int, rev: int, fs: seq<FieldSpec>, i: nat, n: nat)
    requires i < n <= |fs|
    ensures var prev := FieldsAt(read, p, rev, fs, i);
      FieldsAt(read, p, rev, fs, n).0[i] == (if Stored(rev, fs[i].when) then read(prev.1, fs[i].shape) else FallbackOf(prev.0, fs[i]))
    ensures !Stored(rev, fs[i].when) ==> FieldsAt(read, p, rev, fs, i + 1).1 == FieldsAt(read, p, rev, fs, i).1
    ensures Stored(rev, fs[i].when) ==> FieldsAt(read, p, rev, fs, i + 1).1 == FieldsAt(read, p, rev, fs, i).1 + ValueSize(FieldsAt(read, p, rev, fs, n).0[i])
  {
    FieldsAtPrefix(read, p, rev, fs, i + 1, n);
    assert FieldsAt(read, p, rev, fs, n).0[i] == FieldsAt(read, p, rev, fs, n).0[..i + 1][i];
  }

  /** A shorthand: the values of readQFI's features for the block at `p`. */
  function Features(w: Window, p: int, rev: int): (v: seq<QValue>)
    ensures |v| == |QfiTable|
  {
    QfiAt(w, p, rev).fields
  }

  /** Where feature `i` of the block at `p` starts. */
  function FeatureStart(w: Window, p: int, rev: int, i: nat): int
    requires i <= |QfiTable|
  {
    FieldsAt(Reading(w), p + ExtReasonsSize(rev), rev, QfiTable, i).1
  }

  /** XLim is always read, first, right after the extended reasons. */
  lemma XLimRead(w: Window, p: int, rev: int)
    ensures Features(w, p, rev)[0] == One(QIntervsAt(w, p + ExtReasonsSize(rev)))
  {
    assert QfiTable[0].shape == OneShape && QfiTable[0].when == Always;
    FieldsAtEntry(Reading(w), p + ExtReasonsSize(rev), rev, QfiTable, 0, |QfiTable|);
  }

  /** Feature `i` is read where the one before it ends when the revision stores it, and is its placeholder otherwise. */
  lemma FeatureValue(w: Window, p: int, rev: int, i: nat)
    requires i < |QfiTable|
    ensures Stored(rev, QfiTable[i].when) ==> Features(w, p, rev)[i] == ValueAt(w, FeatureStart(w, p, rev, i), QfiTable[i].shape)
    ensures !Stored(rev, QfiTable[i].when) ==> Features(w, p, rev)[i] == FallbackOf(Features(w, p, rev)[..i], QfiTable[i])
  {
    var q := p + ExtReasonsSize(rev);
    FieldsAtEntry(Reading(w), q, rev, QfiTable, i, |QfiTable|);
    FieldsAtPrefix(Reading(w), q, rev, QfiTable, i, |QfiTable|);
  }

  /** A feature the revision does not store that falls back to XLim is XLim, or XLim in all six slots. */
  lemma FallsBackToXLim(w: Window, p: int, rev: int, i: nat)
    requires 0 < i < |QfiTable| && QfiTable[i].otherwise == LikeXLim && !Stored(rev, QfiTable[i].when)
    ensures var xlim := QIntervsAt(w, p + ExtReasonsSize(rev));
      Features(w, p, rev)[i] == if QfiTable[i].shape == OneShape then One(xlim) else Six(CopyToQI6(xlim))
  {
    FeatureValue(w, p, rev, i);
    XLimRead(w, p, rev);
    assert Features(w, p, rev)[..i][0] == Features(w, p, rev)[0];
  }

  /**
   * The end-split intervals alias the split intervals when the revision does
   * not store them.
   */
  lemma EndSplitAliasesSplit(w: Window, p: int, rev: int)
    requires !Gate(rev, 132, 519)
    ensures Features(w, p, rev)[29] == Features(w, p, rev)[26]
    ensures Features(w, p, rev)[30] == Features(w, p, rev)[27]
  {
    assert QfiTable[29].when == Dual(132, 519) && QfiTable[29].otherwise == LikeEntry(26);
    assert QfiTable[30].when == Dual(132, 519) && QfiTable[30].otherwise == LikeEntry(27);
    FeatureValue(w, p, rev, 29);
    FeatureValue(w, p, rev, 30);
    assert Features(w, p, rev)[..29][26] == Features(w, p, rev)[26];
    assert Features(w, p, rev)[..30][27] == Features(w, p, rev)[27];
  }

  /** The open-sided features are `{ivNr: 0}` when the revision does not store them. */
  lemma OpenSidedZero(w: Window, p: int, rev: int, i: nat)
    requires 65 <= i <= 73 && !Stored(rev, QfiTable[i].when)
    ensures Features(w, p, rev)[i] == One(NoIntervs) && IvNr(Features(w, p, rev)[i].q) == 0
  {
    assert QfiTable[i].otherwise == ZeroIntervs;
    FeatureValue(w, p, rev, i);
  }

  /** The open-sided wane features are stored exactly in the revisions above 500 and 117-499. */
  lemma OpenSidedWaneGate(rev: int)
    ensures Stored(rev, QfiTable[65].when) <==> rev > 500 || 116 < rev < 500
  {
  }

  /** A feature the revision does not store takes no bytes; one it stores takes the bytes of its value. */
  lemma FeatureBytes(w: Window, p: int, rev: int, i: nat)
    requires i < |QfiTable|
    ensures !Stored(rev, QfiTable[i].when) ==> FeatureStart(w, p, rev, i + 1) == FeatureStart(w, p, rev, i)
    ensures Stored(rev, QfiTable[i].when) ==> FeatureStart(w, p, rev, i + 1) == FeatureStart(w, p, rev, i) + ValueSize(Features(w, p, rev)[i])
    ensures Stored(rev, QfiTable[i].when) ==> FeatureStart(w, p, rev, i + 1) >= FeatureStart(w, p, rev, i) + 5
  {
    FieldsAtEntry(Reading(w), p + ExtReasonsSize(rev), rev, QfiTable, i, |QfiTable|);
    FeatureValue(w, p, rev, i);
    if Stored(rev, QfiTable[i].when) && QfiTable[i].shape == SixShape {
      QI6SizeAtLeast(w, FeatureStart(w, p, rev, i));
    }
  }
}
