/**
 * readMainHeader: the main header of a board record, read through a reader
 * bounded to the header's selected length. Every field starts at a default;
 * the reads run in order and the first one that does not fit ends the
 * decode without an error, so a field keeps its read value exactly when its
 * bytes, and with them those of every earlier read, lie inside the reader.
 * The header is decoded in six parts; a field is addressed by its offset
 * from the start of the header.
 */
module Header {
  import opened Wrappers
  import opened Bytes
  import opened Reader

  /** The value read when the bytes up to `e` from the header start `p` fit, the default otherwise. */
  function Got<T>(w: Window, p: int, e: int, v: T, d: T): (x: T)
    ensures w.Within(p, e) ==> x == v
    ensures !w.Within(p, e) ==> x == d
  {
    if w.Within(p, e) then v else d
  }

  // ---------------------------------------------------------------------
  // Part 1, offsets 0..232: the option status, the image source and three
  // names (string[100], string[100], string[19]).
  // ---------------------------------------------------------------------

  datatype HeaderIdent = HeaderIdent(status: int, sawMillName: seq<uint8>, fileName: seq<uint8>, dateTimeStr: seq<uint8>)

  const DefaultIdent := HeaderIdent(0, [], [], [])

  function HeaderIdentAt(w: Window, p: int): HeaderIdent
  {
    HeaderIdent(Got(w, p, 5, w.U8At(p + 4) as int, 0),
                Got(w, p, 106, w.Slice(p + 5, 101), []),
                Got(w, p, 207, w.Slice(p + 106, 101), []),
                Got(w, p, 227, w.Slice(p + 207, 20), []))
  }

  method ReadHeaderIdent(r: ByteReader) returns (res: HeaderIdent, complete: bool)
    modifies r
    ensures res == HeaderIdentAt(r.win, old(r.pos))
    ensures complete <==> r.win.Within(old(r.pos), 227)
    ensures complete ==> r.pos == old(r.pos) + 232
  {
    res := DefaultIdent;
    complete := false;
    var optStatus := r.ReadInteger();
    if optStatus.Failure? { return; }
    var status := r.ReadByte();
    if status.Failure? { return; }
    res := res.(status := status.value);
    var sawMillName := r.ReadShortString(100);
    if sawMillName.Failure? { return; }
    res := res.(sawMillName := sawMillName.value);
    var fileName := r.ReadShortString(100);
    if fileName.Failure? { return; }
    res := res.(fileName := fileName.value);
    var dateTimeStr := r.ReadShortString(19);
    if dateTimeStr.Failure? { return; }
    res := res.(dateTimeStr := dateTimeStr.value);
    r.IncOffset(5);
    complete := true;
  }

  // ---------------------------------------------------------------------
  // Part 2, offsets 232..248: the external and the Suro thickness.
  // ---------------------------------------------------------------------

  datatype HeaderThickn = HeaderThickn(extThickn: Num, suroThickn: Num)

  const DefaultThickn := HeaderThickn(Int(0), Int(0))

  function HeaderThicknAt(w: Window, p: int): HeaderThickn
  {
    HeaderThickn(Got(w, p, 240, F64(w.F64At(p + 232)), Int(0)),
                 Got(w, p, 248, F64(w.F64At(p + 240)), Int(0)))
  }

  /** Part 2 of the header that starts at `p`, read where part 1 ends. */
  method ReadHeaderThickn(r: ByteReader, ghost p: int) returns (res: HeaderThickn, complete: bool)
    requires 0 <= p && r.pos == p + 232
    modifies r
    ensures res == HeaderThicknAt(r.win, p)
    ensures complete <==> r.win.Within(p, 248)
    ensures complete ==> r.pos == p + 248
  {
    res := DefaultThickn;
    complete := false;
    var extThickn := r.ReadDouble();
    if extThickn.Failure? { return; }
    res := res.(extThickn := F64(extThickn.value));
    var suroThickn := r.ReadDouble();
    if suroThickn.Failure? { return; }
    res := res.(suroThickn := F64(suroThickn.value));
    complete := true;
  }

  // ---------------------------------------------------------------------
  // Part 3, offsets 248..268: the manual grade, the root and top cuts and
  // the encoder values (the front one is not kept).
  // ---------------------------------------------------------------------

  datatype HeaderCuts = HeaderCuts(manualGrade: int, rootCut: int, topCut: int, rearEnc: int)

  const DefaultCuts := HeaderCuts(0, 0, 0, 0)

  function HeaderCutsAt(w: Window, p: int): HeaderCuts
  {
    HeaderCuts(Got(w, p, 252, w.I32At(p + 248), 0),
               Got(w, p, 256, w.I32At(p + 252), 0),
               Got(w, p, 260, w.I32At(p + 256), 0),
               Got(w, p, 268, w.I32At(p + 264), 0))
  }

  /** Part 3 of the header that starts at `p`, read where part 2 ends. */
  method ReadHeaderCuts(r: ByteReader, ghost p: int) returns (res: HeaderCuts, complete: bool)
    requires 0 <= p && r.pos == p + 248
    modifies r
    ensures res == HeaderCutsAt(r.win, p)
    ensures complete <==> r.win.Within(p, 268)
    ensures complete ==> r.pos == p + 268
  {
    res := DefaultCuts;
    complete := false;
    var manualGrade := r.ReadInteger();
    if manualGrade.Failure? { return; }
    res := res.(manualGrade := manualGrade.value);
    var rootCut := r.ReadInteger();
    if rootCut.Failure? { return; }
    res := res.(rootCut := rootCut.value);
    var topCut := r.ReadInteger();
    if topCut.Failure? { return; }
    res := res.(topCut := topCut.value);
    var frontEnc := r.ReadInteger();
    if frontEnc.Failure? { return; }
    var rearEnc := r.ReadInteger();
    if rearEnc.Failure? { return; }
    res := res.(rearEnc := rearEnc.value);
    complete := true;
  }

  // ---------------------------------------------------------------------
  // Part 4, offsets 268..292: the board, lug and line identifiers (the
  // three unit identifiers between them are not kept).
  // ---------------------------------------------------------------------

  datatype HeaderLine = HeaderLine(boardID: int, lugID: int, lineNr: int)

  const DefaultLine := HeaderLine(0, 0, 0)

  function HeaderLineAt(w: Window, p: int): HeaderLine
  {
    HeaderLine(Got(w, p, 272, w.I32At(p + 268), 0),
               Got(w, p, 288, w.I32At(p + 284), 0),
               Got(w, p, 292, w.I32At(p + 288), 0))
  }

  /** Part 4 of the header that starts at `p`, read where part 3 ends. */
  method ReadHeaderLine(r: ByteReader, ghost p: int) returns (res: HeaderLine, complete: bool)
    requires 0 <= p && r.pos == p + 268
    modifies r
    ensures res == HeaderLineAt(r.win, p)
    ensures complete <==> r.win.Within(p, 292)
    ensures complete ==> r.pos == p + 292
  {
    res := DefaultLine;
    complete := false;
    var boardID := r.ReadInteger();
    if boardID.Failure? { return; }
    res := res.(boardID := boardID.value);
    var units := SkipInts(r, 3);
    if units.Failure? { return; }
    var lugID := r.ReadInteger();
    if lugID.Failure? { return; }
    res := res.(lugID := lugID.value);
    var lineNr := r.ReadInteger();
    if lineNr.Failure? { return; }
    res := res.(lineNr := lineNr.value);
    complete := true;
  }

  /** `n` integers read and not kept. */
  method SkipInts(r: ByteReader, n: nat) returns (res: Result<int>)
    requires 1 <= n <= 3
    modifies r
    ensures res.Success? <==> r.win.Within(old(r.pos), 4 * n)
    ensures res.Success? ==> r.pos == old(r.pos) + 4 * n
    ensures res.Failure? ==> res.error.ReadPastEnd?
  {
    var k :- r.ReadInteger();
    if n > 1 {
      k :- r.ReadInteger();
    }
    if n > 2 {
      k :- r.ReadInteger();
    }
    res := Success(k);
  }

  // ---------------------------------------------------------------------
  // Part 5, offsets 292..312: the end blade position and the end cut length
  // (not kept) and the 64-bit external board identifier.
  // ---------------------------------------------------------------------

  /** Part 5 of the header that starts at `p`, read where part 4 ends: the external board identifier. */
  method ReadHeaderExtID(r: ByteReader, ghost p: int) returns (res: int, complete: bool)
    requires 0 <= p && r.pos == p + 292
    modifies r
    ensures res == Got(r.win, p, 308, r.win.I64At(p + 300), 0)
    ensures complete <==> r.win.Within(p, 308)
    ensures complete ==> r.pos == p + 312
  {
    res := 0;
    complete := false;
    var endCut := SkipInts(r, 2);
    if endCut.Failure? { return; }
    var extBoardID := r.ReadInt64();
    if extBoardID.Failure? { return; }
    res := extBoardID.value;
    r.IncOffset(4);
    complete := true;
  }

  // ---------------------------------------------------------------------
  // Part 6, offsets 312..324: the stacker identifier (not kept), the
  // moisture and heartwood contents and the stress grade.
  // ---------------------------------------------------------------------

  datatype HeaderStock = HeaderStock(moistContent: int, heartwoodContent: int, stressGrade: int)

  const DefaultStock := HeaderStock(0, 0, 0)

  function HeaderStockAt(w: Window, p: int): HeaderStock
  {
    HeaderStock(Got(w, p, 318, w.I16At(p + 316), 0),
                Got(w, p, 319, w.U8At(p + 318) as int, 0),
                Got(w, p, 324, w.I32At(p + 320), 0))
  }

  /** Part 6 of the header that starts at `p`, read where part 5 ends. */
  method ReadHeaderStock(r: ByteReader, ghost p: int) returns (res: HeaderStock, complete: bool)
    requires 0 <= p && r.pos == p + 312
    modifies r
    ensures res == HeaderStockAt(r.win, p)
    ensures complete <==> r.win.Within(p, 324)
    ensures complete ==> r.pos == p + 324
  {
    res := DefaultStock;
    complete := false;
    var stackerID := r.ReadInteger();
    if stackerID.Failure? { return; }
    var moistContent := r.ReadSmallInt();
    if moistContent.Failure? { return; }
    res := res.(moistContent := moistContent.value);
    var heartwoodContent := r.ReadByte();
    if heartwoodContent.Failure? { return; }
    res := res.(heartwoodContent := heartwoodContent.value);
    var pad := r.ReadByte();
    if pad.Failure? { return; }
    var stressGrade := r.ReadInteger();
    if stressGrade.Failure? { return; }
    res := res.(stressGrade := stressGrade.value);
    complete := true;
  }

  // ---------------------------------------------------------------------
  // Part 7, offsets 324..436: the density and the compensated moisture (not
  // kept), the EndSpy identifier and its file name (string[100], not kept).
  // ---------------------------------------------------------------------

  /** Part 7 of the header that starts at `p`, read where part 6 ends: the EndSpy identifier. */
  method ReadHeaderEsID(r: ByteReader, ghost p: int) returns (res: int, complete: bool)
    requires 0 <= p && r.pos == p + 324
    modifies r
    ensures res == Got(r.win, p, 332, r.win.I32At(p + 328), 0)
    ensures complete <==> r.win.Within(p, 433)
    ensures complete ==> r.pos == p + 436
  {
    res := 0;
    complete := false;
    var density := r.ReadSmallInt();
    if density.Failure? { return; }
    var compMoisture := r.ReadSmallInt();
    if compMoisture.Failure? { return; }
    var esid := r.ReadInteger();
    if esid.Failure? { return; }
    res := esid.value;
    var esFileName := r.ReadShortString(100);
    if esFileName.Failure? { return; }
    r.IncOffset(3);
    complete := true;
  }

  /** Part 8, offsets 436..840: the four camera file names (string[100] each), not kept. */
  method SkipFileNames(r: ByteReader) returns (res: Result<seq<uint8>>)
    modifies r
    ensures res.Success? <==> r.win.Within(old(r.pos), 404)
    ensures res.Success? ==> r.pos == old(r.pos) + 404
    ensures res.Failure? ==> res.error.ReadPastEnd?
  {
    var mipuFileName :- r.ReadShortString(100);
    var sipuFileName :- r.ReadShortString(100);
    var mipsFileName :- r.ReadShortString(100);
    res := r.ReadShortString(100);
  }

  // ---------------------------------------------------------------------
  // Part 9, offsets 840..856: the upper, front, lower and rear camera
  // profile identifiers.
  // ---------------------------------------------------------------------

  datatype HeaderCams = HeaderCams(cpidUpper: int, cpidFront: int, cpidLower: int, cpidRear: int)

  const DefaultCams := HeaderCams(0, 0, 0, 0)

  function HeaderCamsAt(w: Window, p: int): HeaderCams
  {
    HeaderCams(Got(w, p, 844, w.I32At(p + 840), 0),
               Got(w, p, 848, w.I32At(p + 844), 0),
               Got(w, p, 852, w.I32At(p + 848), 0),
               Got(w, p, 856, w.I32At(p + 852), 0))
  }

  /** Part 9 of the header that starts at `p`, read where part 8 ends. */
  method ReadHeaderCams(r: ByteReader, ghost p: int) returns (res: HeaderCams, complete: bool)
    requires 0 <= p && r.pos == p + 840
    modifies r
    ensures res == HeaderCamsAt(r.win, p)
    ensures complete <==> r.win.Within(p, 856)
    ensures complete ==> r.pos == p + 856
  {
    res := DefaultCams;
    complete := false;
    var cpidUpper := r.ReadInteger();
    if cpidUpper.Failure? { return; }
    res := res.(cpidUpper := cpidUpper.value);
    var cpidFront := r.ReadInteger();
    if cpidFront.Failure? { return; }
    res := res.(cpidFront := cpidFront.value);
    var cpidLower := r.ReadInteger();
    if cpidLower.Failure? { return; }
    res := res.(cpidLower := cpidLower.value);
    var cpidRear := r.ReadInteger();
    if cpidRear.Failure? { return; }
    res := res.(cpidRear := cpidRear.value);
    complete := true;
  }

  // ---------------------------------------------------------------------
  // Part 10, offsets 856..976: the 3D camera profile identifier, the second
  // EndSpy identifier, then the second EndSpy file name, three bytes and
  // two Nova identifiers, none of them kept.
  // ---------------------------------------------------------------------

  datatype HeaderNova = HeaderNova(cpid3D: int, esid2: int)

  const DefaultNova := HeaderNova(0, 0)

  function HeaderNovaAt(w: Window, p: int): HeaderNova
  {
    HeaderNova(Got(w, p, 860, w.I32At(p + 856), 0),
               Got(w, p, 864, w.I32At(p + 860), 0))
  }

  /** Part 10 of the header that starts at `p`, read where part 9 ends. */
  method ReadHeaderNova(r: ByteReader, ghost p: int) returns (res: HeaderNova, complete: bool)
    requires 0 <= p && r.pos == p + 856
    modifies r
    ensures res == HeaderNovaAt(r.win, p)
    ensures complete <==> r.win.Within(p, 976)
    ensures complete ==> r.pos == p + 976
  {
    res := DefaultNova;
    complete := false;
    var cpid3D := r.ReadInteger();
    if cpid3D.Failure? { return; }
    res := res.(cpid3D := cpid3D.value);
    var esid2 := r.ReadInteger();
    if esid2.Failure? { return; }
    res := res.(esid2 := esid2.value);
    var tail := SkipNovaTail(r);
    if tail.Failure? { return; }
    complete := true;
  }

  /** The second EndSpy file name (string[100]), three bytes and two Nova identifiers: 112 bytes. */
  method SkipNovaTail(r: ByteReader) returns (res: Result<int>)
    modifies r
    ensures res.Success? <==> r.win.Within(old(r.pos), 112)
    ensures res.Success? ==> r.pos == old(r.pos) + 112
    ensures res.Failure? ==> res.error.ReadPastEnd?
  {
    var esFileName2 :- r.ReadShortString(100);
    var b1 :- r.ReadByte();
    var b2 :- r.ReadByte();
    var b3 :- r.ReadByte();
    var mipsbID :- r.ReadInteger();
    res := r.ReadInteger();
  }

  // ---------------------------------------------------------------------
  // The whole header.
  // ---------------------------------------------------------------------

  /** Parts 1 to 5: what the 312-byte header of the oldest revisions holds. */
  datatype HeaderFront = HeaderFront(ident: HeaderIdent, thickn: HeaderThickn, cuts: HeaderCuts, line: HeaderLine,
                                     extBoardID: int)

  function HeaderFrontAt(w: Window, p: int): HeaderFront
  {
    HeaderFront(HeaderIdentAt(w, p), HeaderThicknAt(w, p), HeaderCutsAt(w, p), HeaderLineAt(w, p),
                Got(w, p, 308, w.I64At(p + 300), 0))
  }

  method ReadHeaderFront(r: ByteReader) returns (res: HeaderFront, complete: bool)
    modifies r
    ensures res == HeaderFrontAt(r.win, old(r.pos))
    ensures complete <==> r.win.Within(old(r.pos), 308)
    ensures complete ==> r.pos == old(r.pos) + 312
  {
    ghost var p := r.pos;
    var ident, thickn, cuts, line, extBoardID := DefaultIdent, DefaultThickn, DefaultCuts, DefaultLine, 0;
    complete := false;
    ident, complete := ReadHeaderIdent(r);
    if complete {
      thickn, complete := ReadHeaderThickn(r, p);
    }
    if complete {
      cuts, complete := ReadHeaderCuts(r, p);
    }
    if complete {
      line, complete := ReadHeaderLine(r, p);
    }
    if complete {
      extBoardID, complete := ReadHeaderExtID(r, p);
    }
    res := HeaderFront(ident, thickn, cuts, line, extBoardID);
  }

  /** Parts 6 to 10. */
  datatype HeaderBack = HeaderBack(stock: HeaderStock, esid: int, cams: HeaderCams, nova: HeaderNova)

  const DefaultBack := HeaderBack(DefaultStock, 0, DefaultCams, DefaultNova)

  function HeaderBackAt(w: Window, p: int): HeaderBack
  {
    HeaderBack(HeaderStockAt(w, p), Got(w, p, 332, w.I32At(p + 328), 0), HeaderCamsAt(w, p), HeaderNovaAt(w, p))
  }

  /** Parts 6 to 10 of the header that starts at `p`, read where part 5 ends. */
  method ReadHeaderBack(r: ByteReader, ghost p: int) returns (res: HeaderBack)
    requires 0 <= p && r.pos == p + 312
    modifies r
    ensures res == HeaderBackAt(r.win, p)
  {
    var stock, esid, cams, nova := DefaultStock, 0, DefaultCams, DefaultNova;
    var complete := false;
    stock, complete := ReadHeaderStock(r, p);
    if complete {
      esid, complete := ReadHeaderEsID(r, p);
    }
    if complete {
      var names := SkipFileNames(r);
      complete := names.Success?;
    }
    if complete {
      cams, complete := ReadHeaderCams(r, p);
    }
    if complete {
      nova, complete := ReadHeaderNova(r, p);
    }
    res := HeaderBack(stock, esid, cams, nova);
  }

  /** The main header: each field as read when its bytes fit, its default otherwise. */
  datatype MainHeader = MainHeader(front: HeaderFront, back: HeaderBack)

  function MainHeaderAt(w: Window, p: int): MainHeader
  {
    MainHeader(HeaderFrontAt(w, p), HeaderBackAt(w, p))
  }

  /** readMainHeader: never fails; a read that does not fit ends it with the fields read so far. */
  method ReadMainHeader(r: ByteReader) returns (res: MainHeader)
    modifies r
    ensures res == MainHeaderAt(r.win, old(r.pos))
  {
    ghost var p := r.pos;
    var front, complete := ReadHeaderFront(r);
    var back := DefaultBack;
    if complete {
      back := ReadHeaderBack(r, p);
    }
    res := MainHeader(front, back);
  }

  // ---------------------------------------------------------------------
  // Which fields a bounded header holds.
  // ---------------------------------------------------------------------

  const DefaultFront := HeaderFront(DefaultIdent, DefaultThickn, DefaultCuts, DefaultLine, 0)
  const DefaultHeader := MainHeader(DefaultFront, DefaultBack)

  /** Every field of the header at `p` as its bytes read, whether or not they fit. */
  function HeaderRawAt(w: Window, p: int): MainHeader
  {
    MainHeader(
      HeaderFront(HeaderIdent(w.U8At(p + 4), w.Slice(p + 5, 101), w.Slice(p + 106, 101), w.Slice(p + 207, 20)),
                  HeaderThickn(F64(w.F64At(p + 232)), F64(w.F64At(p + 240))),
                  HeaderCuts(w.I32At(p + 248), w.I32At(p + 252), w.I32At(p + 256), w.I32At(p + 264)),
                  HeaderLine(w.I32At(p + 268), w.I32At(p + 284), w.I32At(p + 288)),
                  w.I64At(p + 300)),
      HeaderBack(HeaderStock(w.I16At(p + 316), w.U8At(p + 318), w.I32At(p + 320)),
                 w.I32At(p + 328),
                 HeaderCams(w.I32At(p + 840), w.I32At(p + 844), w.I32At(p + 848), w.I32At(p + 852)),
                 HeaderNova(w.I32At(p + 856), w.I32At(p + 860))))
  }

  /** A reader that cannot hold the image source byte leaves the whole header at its defaults. */
  lemma HeaderEmpty(w: Window, p: int)
    requires !w.Within(p, 5)
    ensures MainHeaderAt(w, p) == DefaultHeader
  {
  }

  /** A reader of at least 864 bytes from the header start yields every field as read. */
  lemma HeaderComplete(w: Window, p: int)
    requires w.Within(p, 864)
    ensures MainHeaderAt(w, p) == HeaderRawAt(w, p)
  {
  }

  /** The 312-byte header of the oldest revisions: parts 1 to 5 read, parts 6 to 10 at their defaults. */
  lemma Header312(w: Window, p: int)
    requires w.Within(p, 308) && !w.Within(p, 318)
    ensures MainHeaderAt(w, p) == MainHeader(HeaderRawAt(w, p).front, DefaultBack)
  {
  }

  /**
   * The headers of 336, 440 and 840 bytes: all but the camera profile
   * identifiers and the Nova part, which keep their defaults.
   */
  lemma HeaderUpTo840(w: Window, p: int)
    requires w.Within(p, 332) && !w.Within(p, 844)
    ensures var raw := HeaderRawAt(w, p);
      MainHeaderAt(w, p) == MainHeader(raw.front, HeaderBack(raw.back.stock, raw.back.esid, DefaultCams, DefaultNova))
  {
  }

  // ---------------------------------------------------------------------
  // The length of the bounded header reader.
  // ---------------------------------------------------------------------

  /** The `readLen` chain of the board record: the byte length the main header is read from. */
  function MainHeaderReadLen(rev: int, mHdrSize: int): int
  {
    if rev > 104 then mHdrSize
    else if rev > 100 then 840
    else if rev < 41 then 312
    else if mHdrSize == 440 || mHdrSize == 336 then mHdrSize
    else if rev < 101 then 336
    else mHdrSize
  }

  /**
   * The length is the stored size above revision 104, 840 for 101 to 104,
   * 312 below 41, and otherwise 336 unless the stored size is 440 or 336; the
   * last branch of the chain is never taken.
   */
  lemma MainHeaderReadLenCases(rev: int, mHdrSize: int)
    ensures rev > 104 ==> MainHeaderReadLen(rev, mHdrSize) == mHdrSize
    ensures 100 < rev <= 104 ==> MainHeaderReadLen(rev, mHdrSize) == 840
    ensures rev < 41 ==> MainHeaderReadLen(rev, mHdrSize) == 312
    ensures 41 <= rev <= 100 ==>
      MainHeaderReadLen(rev, mHdrSize) == (if mHdrSize == 440 || mHdrSize == 336 then mHdrSize else 336)
    ensures rev <= 104 ==> MainHeaderReadLen(rev, mHdrSize) in {312, 336, 440, 840}
  {
  }
}
