/**
 * The moisture sensor results of a board record (readMoistSpyResult): up
 * to eight sensor records of 2440 bytes in a table of eight slots, the
 * moisture of each sensor, the board moisture and, from revisions 127 and
 * 513, the filtering block; then the corrections the board decoder applies
 * to the records of older revisions.
 */
module MoistSpy {
  import opened Wrappers
  import opened Bytes
  import opened Reader
  import opened Arrays
  import opened Revision

  // ---------------------------------------------------------------------
  // One sensor record, 2440 bytes in every revision.
  // ---------------------------------------------------------------------

  /** Status, encoder position, phase and attenuation. */
  datatype MSSignal = MSSignal(status: int, enc: int, phZ: Float32, phB: Float32, atZ: Float32, atB: Float32)

  /** The four sensor doubles; integers where the corrections set them to zero. */
  datatype MSSensor = MSSensor(sensorTh: Num, sensorMoist: Num, moistA1: Num, moistP1: Num)

  datatype MSResHead = MSResHead(signal: MSSignal, sensor: MSSensor)

  /** The ten point and window words. */
  datatype MSResPoints = MSResPoints(
    numOfPoints: int, centerPoint: int, selPointAt: int, selPointPh: int, sensorPosMM: int, sensorPosEnd: int,
    selWinAtBeg: int, selWinAtEnd: int, selWinPhBeg: int, selWinPhEnd: int)

  /** The error flags, the points, the wane percentage and the adjusted moisture. */
  datatype MSResFlags = MSResFlags(sensorErrFlags: int, points: MSResPoints, wanePerc: int, adjMoist: Num)

  /** The 200 attenuation and 200 phase samples. */
  datatype MSRawData = MSRawData(attenuation: seq<Float32>, phase: seq<Float32>)

  datatype MSRes = MSRes(head: MSResHead, flags: MSResFlags, raw: MSRawData)

  /** The bytes of one sensor record. */
  const MSResSize := 2440

  /** The number of sensor slots in the table, read or not. */
  const SensorSlots := 8

  const SampleCount := 200

  /** The signal block; the time stamp at 16 is read over and dropped. */
  function MSSignalAt(w: Window, p: int): MSSignal
  {
    MSSignal(w.I32At(p), w.I64At(p + 8), w.F32At(p + 24), w.F32At(p + 28), w.F32At(p + 32), w.F32At(p + 36))
  }

  function MSSensorAt(w: Window, p: int): MSSensor
  {
    MSSensor(F64(w.F64At(p)), F64(w.F64At(p + 8)), F64(w.F64At(p + 16)), F64(w.F64At(p + 24)))
  }

  function MSResHeadAt(w: Window, p: int): MSResHead { MSResHead(MSSignalAt(w, p), MSSensorAt(w, p + 40)) }

  function MSResPointsAt(w: Window, p: int): MSResPoints
  {
    MSResPoints(w.U16At(p), w.U16At(p + 2), w.U16At(p + 4), w.U16At(p + 6), w.U16At(p + 8), w.U16At(p + 10),
      w.U16At(p + 12), w.U16At(p + 14), w.U16At(p + 16), w.U16At(p + 18))
  }

  /**
   * The error flags take eight bytes from revision 500 (an integer and four
   * unused bytes) and six before (an integer, an unused byte and an
   * alignment byte); two alignment bytes after the wane word make up the
   * difference, so the adjusted moisture sits 32 bytes in either way.
   */
  function MSErrFlagsSize(rev: int): nat { if rev >= 500 then 8 else 6 }

  function MSResFlagsAt(w: Window, p: int, rev: int): MSResFlags
  {
    var q := p + MSErrFlagsSize(rev);
    MSResFlags(w.I32At(p), MSResPointsAt(w, q), w.I16At(q + 20), F64(w.F64At(p + 32)))
  }

  function MSRawDataAt(w: Window, p: int): MSRawData
  {
    MSRawData(F32sAt(w, p + 182 * 4, SampleCount), F32sAt(w, p + 182 * 4 + 4 * SampleCount, SampleCount))
  }

  function MSResAt(w: Window, p: int, rev: int): MSRes
  {
    MSRes(MSResHeadAt(w, p), MSResFlagsAt(w, p + 72, rev), MSRawDataAt(w, p + 112))
  }

  /** The status, the encoder count and the time stamp of a sensor's signal block; the time is not kept. */
  method ReadMSSignalHead(r: ByteReader) returns (res: Result<(int, int)>)
    modifies r
    ensures res.Success? ==> r.win.Within(old(r.pos), 24)
    ensures res.Success? ==> r.pos == old(r.pos) + 24 && res.value == (r.win.I32At(old(r.pos)), r.win.I64At(old(r.pos) + 8))
    ensures res.Failure? ==> !r.win.Within(old(r.pos), 24) && res.error.ReadPastEnd?
  {
    var status :- r.ReadInteger();
    r.IncOffset(4);
    var enc :- r.ReadInt64();
    var dt :- r.ReadDateTime();
    res := Success((status, enc));
  }

  /** Four singles in a row. */
  method ReadFourSingles(r: ByteReader) returns (res: Result<(Float32, Float32, Float32, Float32)>)
    modifies r
    ensures res.Success? ==> r.win.Within(old(r.pos), 16)
    ensures res.Success? ==> r.pos == old(r.pos) + 16
    ensures res.Success? ==> res.value == (r.win.F32At(old(r.pos)), r.win.F32At(old(r.pos) + 4), r.win.F32At(old(r.pos) + 8), r.win.F32At(old(r.pos) + 12))
    ensures res.Failure? ==> !r.win.Within(old(r.pos), 16) && res.error.ReadPastEnd?
  {
    var a :- r.ReadSingle();
    var b :- r.ReadSingle();
    var c :- r.ReadSingle();
    var d :- r.ReadSingle();
    res := Success((a, b, c, d));
  }

  method ReadMSSignal(r: ByteReader) returns (res: Result<MSSignal>)
    modifies r
    ensures res.Success? ==> r.win.Within(old(r.pos), 40)
    ensures res.Success? ==> r.pos == old(r.pos) + 40 && res.value == MSSignalAt(r.win, old(r.pos))
    ensures res.Failure? ==> !r.win.Within(old(r.pos), 40) && res.error.ReadPastEnd?
  {
    var head :- ReadMSSignalHead(r);
    var phases :- ReadFourSingles(r);
    res := Success(MSSignal(head.0, head.1, phases.0, phases.1, phases.2, phases.3));
  }

  /** Four doubles in a row. */
  method ReadFourDoubles(r: ByteReader) returns (res: Result<(Float64, Float64, Float64, Float64)>)
    modifies r
    ensures res.Success? ==> r.win.Within(old(r.pos), 32)
    ensures res.Success? ==> r.pos == old(r.pos) + 32
    ensures res.Success? ==> res.value == (r.win.F64At(old(r.pos)), r.win.F64At(old(r.pos) + 8), r.win.F64At(old(r.pos) + 16), r.win.F64At(old(r.pos) + 24))
    ensures res.Failure? ==> !r.win.Within(old(r.pos), 32) && res.error.ReadPastEnd?
  {
    var a :- r.ReadDouble();
    var b :- r.ReadDouble();
    var c :- r.ReadDouble();
    var d :- r.ReadDouble();
    res := Success((a, b, c, d));
  }

  method ReadMSSensor(r: ByteReader) returns (res: Result<MSSensor>)
    modifies r
    ensures res.Success? ==> r.win.Within(old(r.pos), 32)
    ensures res.Success? ==> r.pos == old(r.pos) + 32 && res.value == MSSensorAt(r.win, old(r.pos))
    ensures res.Failure? ==> !r.win.Within(old(r.pos), 32) && res.error.ReadPastEnd?
  {
    var d :- ReadFourDoubles(r);
    res := Success(MSSensor(F64(d.0), F64(d.1), F64(d.2), F64(d.3)));
  }

  method ReadMSResHead(r: ByteReader) returns (res: Result<MSResHead>)
    modifies r
    ensures res.Success? ==> r.win.Within(old(r.pos), 72)
    ensures res.Success? ==> r.pos == old(r.pos) + 72 && res.value == MSResHeadAt(r.win, old(r.pos))
    ensures res.Failure? ==> !r.win.Within(old(r.pos), 72) && res.error.ReadPastEnd?
  {
    var signal :- ReadMSSignal(r);
    var sensor :- ReadMSSensor(r);
    res := Success(MSResHead(signal, sensor));
  }

  method ReadMSResPoints(r: ByteReader) returns (res: Result<MSResPoints>)
    modifies r
    ensures res.Success? ==> r.win.Within(old(r.pos), 20)
    ensures res.Success? ==> r.pos == old(r.pos) + 20 && res.value == MSResPointsAt(r.win, old(r.pos))
    ensures res.Failure? ==> !r.win.Within(old(r.pos), 20) && res.error.ReadPastEnd?
  {
    var numOfPoints :- r.ReadWord();
    var centerPoint :- r.ReadWord();
    var selPointAt :- r.ReadWord();
    var selPointPh :- r.ReadWord();
    var sensorPosMM :- r.ReadWord();
    var sensorPosEnd :- r.ReadWord();
    var selWinAtBeg :- r.ReadWord();
    var selWinAtEnd :- r.ReadWord();
    var selWinPhBeg :- r.ReadWord();
    var selWinPhEnd :- r.ReadWord();
    res := Success(MSResPoints(numOfPoints, centerPoint, selPointAt, selPointPh, sensorPosMM, sensorPosEnd,
      selWinAtBeg, selWinAtEnd, selWinPhBeg, selWinPhEnd));
  }

  /** The error flags and the bytes that follow them. */
  method ReadMSErrFlags(r: ByteReader, rev: int) returns (res: Result<int>)
    modifies r
    ensures res.Success? ==> r.win.Within(old(r.pos), if rev >= 500 then 4 else 6)
    ensures res.Success? ==> r.pos == old(r.pos) + MSErrFlagsSize(rev) && res.value == r.win.I32At(old(r.pos))
    ensures res.Failure? ==> !r.win.Within(old(r.pos), if rev >= 500 then 4 else 6) && res.error.ReadPastEnd?
  {
    var flags :- r.ReadInteger();
    if rev >= 500 {
      r.IncOffset(4);
    } else {
      var unused :- r.ReadByte();
      var align :- r.ReadByte();
    }
    res := Success(flags);
  }

  /** The wane percentage, a dummy word and, before revision 500, two alignment bytes. */
  method ReadMSWane(r: ByteReader, rev: int) returns (res: Result<int>)
    modifies r
    ensures res.Success? ==> r.win.Within(old(r.pos), if rev < 500 then 6 else 4)
    ensures res.Success? ==> r.pos == old(r.pos) + (if rev < 500 then 6 else 4) && res.value == r.win.I16At(old(r.pos))
    ensures res.Failure? ==> !r.win.Within(old(r.pos), if rev < 500 then 6 else 4) && res.error.ReadPastEnd?
  {
    var wane :- r.ReadSmallInt();
    var dummy :- r.ReadWord();
    if rev < 500 {
      var a1 :- r.ReadByte();
      var a2 :- r.ReadByte();
    }
    res := Success(wane);
  }

  /** What follows the error flags in the flag block: the points, the wane percentage and the adjusted moisture. */
  method ReadMSFlagsRest(r: ByteReader, rev: int) returns (res: Result<(MSResPoints, int, Float64)>)
    modifies r
    ensures res.Success? ==> r.win.Within(old(r.pos), 40 - MSErrFlagsSize(rev))
    ensures res.Success? ==> r.pos == old(r.pos) + 40 - MSErrFlagsSize(rev)
    ensures res.Success? ==> res.value == (MSResPointsAt(r.win, old(r.pos)), r.win.I16At(old(r.pos) + 20), r.win.F64At(old(r.pos) + 32 - MSErrFlagsSize(rev)))
    ensures res.Failure? ==> !r.win.Within(old(r.pos), 40 - MSErrFlagsSize(rev)) && res.error.ReadPastEnd?
  {
    var points :- ReadMSResPoints(r);
    var wane :- ReadMSWane(r, rev);
    var adjMoist :- r.ReadDouble();
    res := Success((points, wane, adjMoist));
  }

  method ReadMSResFlags(r: ByteReader, rev: int) returns (res: Result<MSResFlags>)
    modifies r
    ensures res.Success? ==> r.win.Within(old(r.pos), 40)
    ensures res.Success? ==> r.pos == old(r.pos) + 40 && res.value == MSResFlagsAt(r.win, old(r.pos), rev)
    ensures res.Failure? ==> !r.win.Within(old(r.pos), 40) && res.error.ReadPastEnd?
  {
    var flags :- ReadMSErrFlags(r, rev);
    var rest :- ReadMSFlagsRest(r, rev);
    res := Success(MSResFlags(flags, rest.0, rest.1, F64(rest.2)));
  }

  /** 182 vacant words, then the attenuation and phase samples. */
  method ReadMSRawData(r: ByteReader) returns (res: Result<MSRawData>)
    modifies r
    ensures res.Success? ==> r.win.Within(old(r.pos) + 182 * 4, 8 * SampleCount)
    ensures res.Success? ==> r.pos == old(r.pos) + 182 * 4 + 8 * SampleCount && res.value == MSRawDataAt(r.win, old(r.pos))
    ensures res.Failure? ==> !r.win.Within(old(r.pos) + 182 * 4, 8 * SampleCount) && res.error.ReadPastEnd?
  {
    r.IncOffset(182 * 4);
    var attenuation :- ReadSingles(r, SampleCount);
    var phase :- ReadSingles(r, SampleCount);
    res := Success(MSRawData(attenuation, phase));
  }

  /** The signal, the sensor values and the flags of a sensor record: its first 112 bytes. */
  method ReadMSResFront(r: ByteReader, rev: int) returns (res: Result<(MSResHead, MSResFlags)>)
    modifies r
    ensures res.Success? ==> r.win.Within(old(r.pos), 112)
    ensures res.Success? ==> r.pos == old(r.pos) + 112
    ensures res.Success? ==> res.value == (MSResHeadAt(r.win, old(r.pos)), MSResFlagsAt(r.win, old(r.pos) + 72, rev))
    ensures res.Failure? ==> !r.win.Within(old(r.pos), 112) && res.error.ReadPastEnd?
  {
    var head :- ReadMSResHead(r);
    var flags :- ReadMSResFlags(r, rev);
    res := Success((head, flags));
  }

  method ReadMSRes(r: ByteReader, rev: int) returns (res: Result<MSRes>)
    modifies r
    ensures res.Success? ==> r.win.Within(old(r.pos), MSResSize)
    ensures res.Success? ==> r.pos == old(r.pos) + MSResSize && res.value == MSResAt(r.win, old(r.pos), rev)
    ensures res.Failure? ==> !r.win.Within(old(r.pos), MSResSize) && res.error.ReadPastEnd?
  {
    var front :- ReadMSResFront(r, rev);
    var raw :- ReadMSRawData(r);
    res := Success(MSRes(front.0, front.1, raw));
  }

  // ---------------------------------------------------------------------
  // The sensor table and the whole record.
  // ---------------------------------------------------------------------

  /** The decoder of one sensor record, for runs of them. */
  function MSResReader(w: Window, rev: int): int -> MSRes { q => MSResAt(w, q, rev) }

  /** `n` sensor records one after the other from `p`. */
  function MSResRunAt(w: Window, p: int, rev: int, n: nat): (s: seq<MSRes>)
    ensures |s| == n
  {
    RunAt(MSResReader(w, rev), p, MSResSize, n)
  }

  /** The sensor records the count declares; none when it is not positive. */
  method ReadMSResList(r: ByteReader, rev: int, n: int) returns (res: Result<seq<MSRes>>)
    modifies r
    ensures res.Success? ==> Count(n) == 0 || r.win.Within(old(r.pos), MSResSize * Count(n))
    ensures res.Success? ==> r.pos == old(r.pos) + MSResSize * Count(n)
    ensures res.Success? ==> res.value == MSResRunAt(r.win, old(r.pos), rev, Count(n))
    ensures res.Failure? ==> Count(n) > 0 && !r.win.Within(old(r.pos), MSResSize * Count(n)) && res.error.ReadPastEnd?
  {
    ghost var p0 := r.pos;
    var acc: seq<MSRes> := [];
    var i := 0;
    while i < Count(n)
      invariant 0 <= i <= Count(n)
      invariant r.pos == p0 + MSResSize * i
      invariant i > 0 ==> r.win.Within(p0, MSResSize * i)
      invariant acc == MSResRunAt(r.win, p0, rev, i)
    {
      MulMonotone(MSResSize, i + 1, Count(n));
      ghost var q := r.pos;
      var x :- ReadMSRes(r, rev);
      RunAtStep(MSResReader(r.win, rev), p0, MSResSize, i, q, x);
      acc := acc + [x];
      i := i + 1;
    }
    res := Success(acc);
  }

  /** The filter state: frozen flag, average and deviation of the filtered values, and why it did not filter. */
  datatype FilterStats = FilterStats(frozenBoard: bool, valueAve: Num, valueStd: Num, noFilterReason: int)

  /** The board measures of the filter; thickness, width and board number are read over and dropped. */
  datatype FilterBoard = FilterBoard(bTemperature: int, bmxMoisture: Num, aTemperature: int, nrBoardsInFiltering: int)

  /** The filtering block of revisions 127 and 513 onwards; zeros and `false` before. */
  datatype MoistFilter = MoistFilter(stats: FilterStats, board: FilterBoard)

  const MoistFilterDefault := MoistFilter(FilterStats(false, Int(0), Int(0), 0), FilterBoard(0, Int(0), 0, 0))

  /** `(RevNr > 512) || ((RevNr < 500) && (RevNr > 126))` */
  predicate HasMoistFilter(rev: int) { Gate(rev, 126, 512) }

  const MoistFilterSize := 88

  function FilterStatsAt(w: Window, p: int): FilterStats
  {
    FilterStats(w.BoolAt(p), F32(w.F32At(p + 4)), F32(w.F32At(p + 8)), w.U8At(p + 12))
  }

  function FilterBoardAt(w: Window, p: int): FilterBoard
  {
    FilterBoard(w.I32At(p + 8), F32(w.F32At(p + 16)), w.I32At(p + 20), w.U16At(p + 24))
  }

  function MoistFilterAt(w: Window, p: int): MoistFilter { MoistFilter(FilterStatsAt(w, p), FilterBoardAt(w, p + 16)) }

  /** The frozen flag and the reason byte are each followed by three alignment bytes. */
  method ReadFilterStats(r: ByteReader) returns (res: Result<FilterStats>)
    modifies r
    ensures res.Success? ==> r.win.Within(old(r.pos), 13)
    ensures res.Success? ==> r.pos == old(r.pos) + 16 && res.value == FilterStatsAt(r.win, old(r.pos))
    ensures res.Failure? ==> !r.win.Within(old(r.pos), 13) && res.error.ReadPastEnd?
  {
    var frozen :- r.ReadBoolean();
    r.IncOffset(3);
    var valueAve :- r.ReadSingle();
    var valueStd :- r.ReadSingle();
    var noFilterReason :- r.ReadByte();
    r.IncOffset(3);
    res := Success(FilterStats(frozen, F32(valueAve), F32(valueStd), noFilterReason));
  }

  method ReadFilterBoard(r: ByteReader) returns (res: Result<FilterBoard>)
    modifies r
    ensures res.Success? ==> r.win.Within(old(r.pos), 28)
    ensures res.Success? ==> r.pos == old(r.pos) + 72 && res.value == FilterBoardAt(r.win, old(r.pos))
    ensures res.Failure? ==> !r.win.Within(old(r.pos), 28) && res.error.ReadPastEnd?
  {
    var bThickn :- r.ReadSingle();
    var bWidth :- r.ReadSingle();
    var bTemperature :- r.ReadInteger();
    var bNr :- r.ReadInteger();
    var bmxMoisture :- r.ReadSingle();
    var aTemperature :- r.ReadInteger();
    var nrBoards :- r.ReadWord();
    var dummy :- r.ReadWord();
    r.IncOffset(11 * 4);
    res := Success(FilterBoard(bTemperature, F32(bmxMoisture), aTemperature, nrBoards));
  }

  method ReadMoistFilter(r: ByteReader) returns (res: Result<MoistFilter>)
    modifies r
    ensures res.Success? ==> r.win.Within(old(r.pos), 44)
    ensures res.Success? ==> r.pos == old(r.pos) + MoistFilterSize && res.value == MoistFilterAt(r.win, old(r.pos))
    ensures res.Failure? ==> !r.win.Within(old(r.pos), 44) && res.error.ReadPastEnd?
  {
    var stats :- ReadFilterStats(r);
    var board :- ReadFilterBoard(r);
    res := Success(MoistFilter(stats, board));
  }

  /**
   * How many slots a table of `SensorSlots` slots skips over after the
   * records the count declares: the table is always its eight slots, and
   * more when a negative count makes the skip go further.
   */
  function SlotsTaken(count: int): nat { SensorSlots + Count(-count) }

  /** The sensor count, an alignment word and the table of sensor records. */
  datatype MSTable = MSTable(count: int, msRes: seq<MSRes>)

  function MSTableSize(count: int): nat { 8 + MSResSize * SlotsTaken(count) }

  function MSTableAt(w: Window, p: int, rev: int): MSTable
  {
    MSTable(w.I32At(p), MSResRunAt(w, p + 8, rev, Count(w.I32At(p))))
  }

  method ReadMSTable(r: ByteReader, rev: int) returns (res: Result<MSTable>)
    modifies r
    ensures res.Success? ==> r.pos == old(r.pos) + MSTableSize(res.value.count) && res.value == MSTableAt(r.win, old(r.pos), rev)
    ensures res.Failure? ==> res.error.ReadPastEnd?
  {
    var count :- r.ReadInteger();
    r.IncOffset(4);
    var list :- ReadMSResList(r, rev, count);
    r.IncOffset((8 - count) * 2440);
    res := Success(MSTable(count, list));
  }

  /** The moisture of each sensor, the board moisture, and the filtering block. */
  datatype MoistTail = MoistTail(msResMoist: seq<Float32>, moisture: Float32, filter: MoistFilter)

  /** The sensor moistures in their eight slots, eight density singles, the moisture and the density. */
  function MoistTailSize(rev: int, count: int): nat
  {
    4 * SlotsTaken(count) + 4 * SensorSlots + 8 + (if HasMoistFilter(rev) then MoistFilterSize else 0)
  }

  function MoistTailAt(w: Window, p: int, rev: int, count: int): MoistTail
  {
    var e := p + 4 * SlotsTaken(count) + 4 * SensorSlots;
    MoistTail(F32sAt(w, p, Count(count)), w.F32At(e), if HasMoistFilter(rev) then MoistFilterAt(w, e + 8) else MoistFilterDefault)
  }

  /** The sensor moistures in their slots, the density singles skipped, then the board's moisture; its density is not kept. */
  method ReadMoistReadings(r: ByteReader, count: int) returns (res: Result<(seq<Float32>, Float32)>)
    modifies r
    ensures res.Success? ==> r.pos == old(r.pos) + 4 * SlotsTaken(count) + 4 * SensorSlots + 8
    ensures res.Success? ==> res.value == (F32sAt(r.win, old(r.pos), Count(count)), r.win.F32At(old(r.pos) + 4 * SlotsTaken(count) + 4 * SensorSlots))
    ensures res.Failure? ==> res.error.ReadPastEnd?
  {
    var moist :- ReadSingles(r, count);
    r.IncOffset((8 - count) * 4);
    r.IncOffset(8 * 4);
    var moisture :- r.ReadSingle();
    var density :- r.ReadSingle();
    res := Success((moist, moisture));
  }

  method ReadMoistTail(r: ByteReader, rev: int, count: int) returns (res: Result<MoistTail>)
    modifies r
    ensures res.Success? ==> r.pos == old(r.pos) + MoistTailSize(rev, count) && res.value == MoistTailAt(r.win, old(r.pos), rev, count)
    ensures res.Failure? ==> res.error.ReadPastEnd?
  {
    var readings :- ReadMoistReadings(r, count);
    var filter := MoistFilterDefault;
    if (rev > 512) || ((rev < 500) && (rev > 126)) {
      filter :- ReadMoistFilter(r);
    }
    res := Success(MoistTail(readings.0, readings.1, filter));
  }

  datatype MoistSpyResult = MoistSpyResult(
    count: int, msRes: seq<MSRes>, msResMoist: seq<Float32>, moisture: Float32, filter: MoistFilter)

  function MoistSpySize(rev: int, count: int): nat { MSTableSize(count) + MoistTailSize(rev, count) }

  function MoistSpyAt(w: Window, p: int, rev: int): MoistSpyResult
  {
    var t := MSTableAt(w, p, rev);
    var tail := MoistTailAt(w, p + MSTableSize(t.count), rev, t.count);
    MoistSpyResult(t.count, t.msRes, tail.msResMoist, tail.moisture, tail.filter)
  }

  /** A decoded record holds one sensor record and one sensor moisture for each sensor it counts. */
  predicate Shaped(ms: MoistSpyResult)
  {
    |ms.msRes| == Count(ms.count) && |ms.msResMoist| == Count(ms.count)
  }

  method ReadMoistSpyResult(r: ByteReader, rev: int) returns (res: Result<MoistSpyResult>)
    modifies r
    ensures res.Success? ==> r.pos == old(r.pos) + MoistSpySize(rev, res.value.count)
    ensures res.Success? ==> res.value == MoistSpyAt(r.win, old(r.pos), rev) && Shaped(res.value)
    ensures res.Failure? ==> res.error.ReadPastEnd?
  {
    var table :- ReadMSTable(r, rev);
    var tail :- ReadMoistTail(r, rev, table.count);
    res := Success(MoistSpyResult(table.count, table.msRes, tail.msResMoist, tail.moisture, tail.filter));
  }

  /** With up to eight sensors the record takes 19600 bytes, and 88 more with the filtering block. */
  lemma MoistSpySizes(rev: int, count: int)
    requires count >= 0
    ensures MoistSpySize(rev, count) == if HasMoistFilter(rev) then 19688 else 19600
  {
  }

  // ---------------------------------------------------------------------
  // The corrections of older revisions (the MoistSpy fixes of the board
  // decoder).
  // ---------------------------------------------------------------------

  /** `(RevNr < 135) || ((RevNr >= 500) && (RevNr < 523))`: wane and adjusted moisture did not exist. */
  predicate NeedsMoistFix(rev: int) { rev < 135 || (500 <= rev < 523) }

  /** `(RevNr < 127) || ((RevNr >= 500) && (RevNr < 513))`: the sensor doubles, flags and points did not exist. */
  predicate HasOldSensor(rev: int) { rev < 127 || (500 <= rev < 513) }

  /** `(RevNr < 129) || ((RevNr >= 500) && (RevNr < 515))`: the selection windows did not exist. */
  predicate HasOldWindows(rev: int) { rev < 129 || (500 <= rev < 515) }

  lemma FixGates(rev: int)
    ensures HasOldSensor(rev) ==> HasOldWindows(rev)
    ensures HasOldWindows(rev) ==> NeedsMoistFix(rev)
  {
  }

  /** The points with the fields a revision did not have set to zero. */
  function FixedPoints(p: MSResPoints, rev: int): MSResPoints
  {
    var q := if HasOldSensor(rev) then p.(numOfPoints := 0, centerPoint := 0, selPointAt := 0, selPointPh := 0) else p;
    if HasOldWindows(rev) then q.(selWinAtBeg := 0, selWinAtEnd := 0, selWinPhBeg := 0, selWinPhEnd := 0) else q
  }

  /**
   * One sensor record of an older revision: the fields it did not have are
   * zero, and a sensor moisture of zero (`== 0`) is taken from the sensor
   * moisture list, which old versions used instead.
   */
  function FixedMSRes(m: MSRes, moist: Float32, rev: int): MSRes
  {
    var h := m.head.sensor;
    var sensor := if HasOldSensor(rev) then
      MSSensor(Int(0), if h.sensorMoist.IsZero() then F32(moist) else h.sensorMoist, Int(0), Int(0))
      else h;
    var f := m.flags;
    var flags := f.(sensorErrFlags := if HasOldSensor(rev) then 0 else f.sensorErrFlags,
      points := FixedPoints(f.points, rev), wanePerc := 0, adjMoist := Int(0));
    m.(head := m.head.(sensor := sensor), flags := flags)
  }

  /** Older revisions count 50 boards in the filter whenever the filter has a positive average. */
  function FixedFilter(f: MoistFilter): MoistFilter
  {
    if f.stats.valueAve.IsPositive() then f.(board := f.board.(nrBoardsInFiltering := 50)) else f
  }

  /** The record after the corrections. */
  function MoistSpyFixed(ms: MoistSpyResult, rev: int): MoistSpyResult
    requires Shaped(ms)
  {
    if NeedsMoistFix(rev) then
      ms.(msRes := seq(|ms.msRes|, i requires 0 <= i < |ms.msRes| => FixedMSRes(ms.msRes[i], ms.msResMoist[i], rev)),
        filter := FixedFilter(ms.filter))
    else ms
  }

  /** The loop over the sensors the count declares, then the filter correction. */
  method FixMoistSpy(ms: MoistSpyResult, rev: int) returns (fixed: MoistSpyResult)
    requires Shaped(ms)
    ensures fixed == MoistSpyFixed(ms, rev)
  {
    fixed := ms;
    if (rev < 135) || ((rev >= 500) && (rev < 523)) {
      var list: seq<MSRes> := [];
      var i := 0;
      while i < Count(ms.count)
        invariant 0 <= i <= Count(ms.count)
        invariant |list| == i
        invariant forall k :: 0 <= k < i ==> list[k] == FixedMSRes(ms.msRes[k], ms.msResMoist[k], rev)
      {
        list := list + [FixedMSRes(ms.msRes[i], ms.msResMoist[i], rev)];
        i := i + 1;
      }
      fixed := ms.(msRes := list);
      if ms.filter.stats.valueAve.IsPositive() {
        fixed := fixed.(filter := ms.filter.(board := ms.filter.board.(nrBoardsInFiltering := 50)));
      }
    }
  }

  /** Correcting a record a second time changes nothing. */
  lemma MoistSpyFixIdempotent(ms: MoistSpyResult, rev: int)
    requires Shaped(ms)
    ensures Shaped(MoistSpyFixed(ms, rev))
    ensures MoistSpyFixed(MoistSpyFixed(ms, rev), rev) == MoistSpyFixed(ms, rev)
  {
    var f := MoistSpyFixed(ms, rev);
    if NeedsMoistFix(rev) {
      var g := MoistSpyFixed(f, rev);
      forall i | 0 <= i < |g.msRes|
        ensures g.msRes[i] == f.msRes[i]
      {
        FixedMSResIdempotent(ms.msRes[i], ms.msResMoist[i], rev);
      }
    }
  }

  lemma FixedMSResIdempotent(m: MSRes, moist: Float32, rev: int)
    ensures FixedMSRes(FixedMSRes(m, moist, rev), moist, rev) == FixedMSRes(m, moist, rev)
  {
  }

  /**
   * What the corrections leave alone: the count, the lists' lengths, each
   * record's status, encoder position, samples and sensor positions, the
   * sensor moistures and the board moisture; and newer revisions entirely.
   */
  lemma MoistSpyFixKeeps(ms: MoistSpyResult, rev: int, i: int)
    requires Shaped(ms) && 0 <= i < |ms.msRes|
    ensures var f := MoistSpyFixed(ms, rev);
      Shaped(f) && f.count == ms.count && f.msResMoist == ms.msResMoist && f.moisture == ms.moisture
      && f.msRes[i].raw == ms.msRes[i].raw && f.msRes[i].head.signal == ms.msRes[i].head.signal
      && f.msRes[i].flags.points.sensorPosMM == ms.msRes[i].flags.points.sensorPosMM
      && f.msRes[i].flags.points.sensorPosEnd == ms.msRes[i].flags.points.sensorPosEnd
    ensures !NeedsMoistFix(rev) ==> MoistSpyFixed(ms, rev) == ms
  {
  }

  /**
   * What the corrections do to sensor `i` of an older revision: the fields
   * of later revisions are zero, and the sensor moisture is zero only when
   * both the record's and the list's are.
   */
  lemma MoistSpyFixZeroes(ms: MoistSpyResult, rev: int, i: int)
    requires Shaped(ms) && 0 <= i < |ms.msRes| && HasOldSensor(rev)
    ensures var m := MoistSpyFixed(ms, rev).msRes[i];
      m.head.sensor.sensorTh == Int(0) && m.head.sensor.moistA1 == Int(0) && m.head.sensor.moistP1 == Int(0)
      && m.flags.sensorErrFlags == 0 && m.flags.wanePerc == 0 && m.flags.adjMoist == Int(0)
      && m.flags.points.numOfPoints == 0 && m.flags.points.selWinPhEnd == 0
      && (m.head.sensor.sensorMoist.IsZero() <==> ms.msRes[i].head.sensor.sensorMoist.IsZero() && ms.msResMoist[i].IsZero())
  {
    FixGates(rev);
  }

  /** In older revisions the filter count is 50 exactly when the average is positive, and kept otherwise. */
  lemma MoistSpyFixFilter(ms: MoistSpyResult, rev: int)
    requires Shaped(ms) && NeedsMoistFix(rev)
    ensures var f := MoistSpyFixed(ms, rev).filter;
      f.stats == ms.filter.stats
      && (ms.filter.stats.valueAve.IsPositive() ==> f.board.nrBoardsInFiltering == 50)
      && (!ms.filter.stats.valueAve.IsPositive() ==> f == ms.filter)
  {
  }
}
