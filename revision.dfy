/**
 * The revision resolver: the leading tag of a file, the revision number
 * parsed from it, the rest of the initial file information and the batch
 * block, and the dual-range revision gates every later decode is keyed on.
 */
module Revision {
  import opened Wrappers
  import opened Bytes
  import opened Reader

  // ---------------------------------------------------------------------
  // Revision gates. Legacy revisions run from about 20 to 140, current ones
  // from 500; most gates are "above C in the current range or above L in
  // the legacy range".
  // ---------------------------------------------------------------------

  /** `(RevNr > current) || ((RevNr < 500) && (RevNr > legacy))`. */
  predicate Gate(rev: int, legacy: int, current: int)
  {
    rev > current || (rev < 500 && rev > legacy)
  }

  /** `(RevNr >= current) || ((RevNr < 500) && (RevNr >= legacy))`, the inclusive shape some sites use. */
  predicate GateAtLeast(rev: int, legacy: int, current: int)
  {
    rev >= current || (rev < 500 && rev >= legacy)
  }

  /** Away from 500 and the current threshold, a gate moves at the legacy threshold and nowhere else in the legacy range. */
  lemma GateLegacyStep(legacy: int, current: int)
    requires 500 <= current && legacy + 1 < 500
    ensures !Gate(legacy, legacy, current) && Gate(legacy + 1, legacy, current)
    ensures forall rev :: rev < 500 ==> (Gate(rev, legacy, current) <==> rev > legacy)
  {
  }

  /** In the current range a gate depends only on the current threshold. */
  lemma GateCurrentStep(legacy: int, current: int)
    requires 500 <= current && legacy < 500
    ensures !Gate(current, legacy, current) && Gate(current + 1, legacy, current)
    ensures forall rev :: rev >= 500 ==> (Gate(rev, legacy, current) <==> rev > current)
  {
  }

  /** The inclusive shape is the exclusive one moved down by one. */
  lemma GateAtLeastIsGate(rev: int, legacy: int, current: int)
    requires legacy < 500
    ensures GateAtLeast(rev, legacy, current) <==> Gate(rev, legacy - 1, current - 1)
  {
  }

  // ---------------------------------------------------------------------
  // JavaScript parseInt with no radix, on the characters of a tag.
  // ---------------------------------------------------------------------

  /** StrWhiteSpaceChar of the ECMAScript standard (white space and line terminators). */
  predicate IsJsSpace(c: char)
  {
    var k := c as int;
    (9 <= k <= 13) || k == 32 || k == 0xA0 || k == 0x1680 || (0x2000 <= k <= 0x200A)
    || k == 0x2028 || k == 0x2029 || k == 0x202F || k == 0x205F || k == 0x3000 || k == 0xFEFF
  }

  /** The value of `c` as a digit of the given radix, if it is one. */
  function DigitValue(c: char, radix: nat): (d: Option<nat>)
    ensures d.Some? ==> d.value < radix
  {
    var v: int :=
      if '0' <= c <= '9' then c as int - '0' as int
      else if 'a' <= c <= 'z' then c as int - 'a' as int + 10
      else if 'A' <= c <= 'Z' then c as int - 'A' as int + 10
      else 36;
    if v < radix then Some(v) else None
  }

  function TrimStart(s: string): (t: string)
    ensures |t| <= |s| && t == s[|s| - |t|..]
    ensures |t| > 0 ==> !IsJsSpace(t[0])
  {
    if |s| > 0 && IsJsSpace(s[0]) then TrimStart(s[1..]) else s
  }

  /** The longest prefix of `s` made of digits of the radix. */
  function LeadingDigits(s: string, radix: nat): (z: string)
    ensures |z| <= |s| && z == s[..|z|]
    ensures forall i :: 0 <= i < |z| ==> DigitValue(z[i], radix).Some?
    ensures |z| < |s| ==> DigitValue(s[|z|], radix).None?
  {
    if |s| > 0 && DigitValue(s[0], radix).Some? then [s[0]] + LeadingDigits(s[1..], radix) else []
  }

  /** The number a string of radix digits denotes, most significant first. */
  function DigitsValue(z: string, radix: nat): nat
    requires forall i :: 0 <= i < |z| ==> DigitValue(z[i], radix).Some?
  {
    if |z| == 0 then 0
    else
      var high := DigitsValue(z[..|z| - 1], radix);
      ProductOfNats(high, radix);
      high * radix + DigitValue(z[|z| - 1], radix).value
  }

  /** The sign of a product, which the solver otherwise searches for at length. */
  lemma ProductOfNats(a: nat, b: nat)
    ensures a * b >= 0
  {
  }

  /**
   * `parseInt(s)`: leading white space is skipped, then one sign, then a
   * `0x`/`0X` prefix that switches to radix 16; the longest run of digits
   * that follows is the value, and no digit at all gives NaN (None). A
   * negative zero is the integer 0 here, as nothing downstream tells them
   * apart.
   */
  function ParseInt(s: string): Option<int>
  {
    ParseTrimmed(TrimStart(s))
  }

  /** The sign step, on text with the leading white space gone. */
  function ParseTrimmed(t: string): Option<int>
  {
    if |t| > 0 && t[0] == '-' then
      match ParseUnsigned(t[1..])
      case None => None
      case Some(v) => var n: int := v; Some(-n)
    else if |t| > 0 && t[0] == '+' then ParseUnsigned(t[1..])
    else ParseUnsigned(t)
  }

  /** The radix step: `0x` or `0X` selects 16, anything else 10. */
  function ParseUnsigned(u: string): Option<nat>
  {
    if |u| >= 2 && u[0] == '0' && (u[1] == 'x' || u[1] == 'X') then ParseDigitRun(u[2..], 16)
    else ParseDigitRun(u, 10)
  }

  /** The value of the longest run of digits at the front, NaN when there is none. */
  function ParseDigitRun(u: string, radix: nat): Option<nat>
  {
    var z := LeadingDigits(u, radix);
    if |z| == 0 then None else Some(DigitsValue(z, radix))
  }

  predicate IsDecimalDigit(c: char) { '0' <= c <= '9' }

  /** A run of decimal digits parses to the number it spells. */
  lemma ParseDigits(s: string)
    requires |s| > 0 && forall i :: 0 <= i < |s| ==> IsDecimalDigit(s[i])
    ensures forall i :: 0 <= i < |s| ==> DigitValue(s[i], 10).Some?
    ensures ParseUnsigned(s) == Some(DigitsValue(s, 10))
    ensures ParseInt(s) == Some(DigitsValue(s, 10))
  {
    DecimalDigitValues(s);
    LeadingDigitsOfDigits(s);
    DigitsUntrimmed(s);
    DigitsUnsigned(s);
  }

  /** Text that starts with a digit has no white space or sign to skip. */
  lemma DigitsUntrimmed(s: string)
    requires |s| > 0 && IsDecimalDigit(s[0])
    ensures TrimStart(s) == s && ParseTrimmed(s) == ParseUnsigned(s)
  {
    NotSpace(s[0]);
  }

  /** Decimal digits never carry the `0x` prefix. */
  lemma DigitsUnsigned(s: string)
    requires |s| > 1 ==> IsDecimalDigit(s[1])
    ensures ParseUnsigned(s) == ParseDigitRun(s, 10)
  {
  }

  lemma DecimalDigitValues(s: string)
    requires forall i :: 0 <= i < |s| ==> IsDecimalDigit(s[i])
    ensures forall i :: 0 <= i < |s| ==> DigitValue(s[i], 10).Some?
  {
  }

  /** Text made only of digits is its own leading run of digits. */
  lemma LeadingDigitsOfDigits(s: string)
    requires forall i :: 0 <= i < |s| ==> DigitValue(s[i], 10).Some?
    ensures LeadingDigits(s, 10) == s
  {
    var z := LeadingDigits(s, 10);
    assert |z| == |s|;
  }

  /** A minus sign in front of the text negates what the text parses to without it; NaN stays NaN. */
  lemma ParseNegative(u: string)
    ensures ParseUnsigned(u).None? ==> ParseInt(['-'] + u) == None
    ensures ParseUnsigned(u).Some? ==> ParseInt(['-'] + u) == Some(-(ParseUnsigned(u).value as int))
  {
    var t := ['-'] + u;
    assert t[0] == '-' && t[1..] == u;
    assert TrimStart(t) == t by {
      NotSpace('-');
    }
  }

  lemma NotSpace(c: char)
    requires c as int < 9 || 13 < c as int < 32 || 32 < c as int < 0xA0
    ensures !IsJsSpace(c)
  {
  }

  /** White space in front of the text does not change what it parses to. */
  lemma ParseSkipsSpace(c: char, s: string)
    requires IsJsSpace(c)
    ensures ParseInt([c] + s) == ParseInt(s)
  {
    assert ([c] + s)[1..] == s;
    assert TrimStart([c] + s) == TrimStart(s);
  }

  /** Text that starts with neither white space, a sign nor a digit is NaN. */
  lemma ParseNonNumeric(s: string)
    requires |s| > 0 && !IsJsSpace(s[0]) && s[0] != '-' && s[0] != '+' && DigitValue(s[0], 10).None?
    ensures ParseInt(s) == None
  {
    assert TrimStart(s) == s;
  }

  /** The number three decimal digits spell: hundreds, tens and units. */
  function Decimal3(a: char, b: char, c: char): int
  {
    100 * (a as int - '0' as int) + 10 * (b as int - '0' as int) + (c as int - '0' as int)
  }

  /** Three decimal digits: hundreds, tens and units. */
  lemma ThreeDigitsValue(s: string)
    requires |s| == 3 && IsDecimalDigit(s[0]) && IsDecimalDigit(s[1]) && IsDecimalDigit(s[2])
    ensures forall i :: 0 <= i < |s| ==> DigitValue(s[i], 10).Some?
    ensures DigitsValue(s, 10) == Decimal3(s[0], s[1], s[2])
  {
    var a, b, c := s[0], s[1], s[2];
    assert [a] == [] + [a];
    DigitsValueLast([], a);
    assert [a, b] == [a] + [b];
    DigitsValueLast([a], b);
    assert s == [a, b] + [c];
    DigitsValueLast([a, b], c);
  }

  /** Appending a decimal digit multiplies the value by ten and adds the digit. */
  lemma DigitsValueLast(y: string, c: char)
    requires forall i :: 0 <= i < |y| ==> DigitValue(y[i], 10).Some?
    requires IsDecimalDigit(c)
    ensures forall i :: 0 <= i < |y + [c]| ==> DigitValue((y + [c])[i], 10).Some?
    ensures DigitsValue(y + [c], 10) == DigitsValue(y, 10) * 10 + (c as int - '0' as int)
  {
    assert (y + [c])[..|y|] == y;
  }

  // ---------------------------------------------------------------------
  // The revision tag.
  // ---------------------------------------------------------------------

  /** The decimal digits of `n`, as `"" + n` prints them. */
  function DecimalString(n: nat): (s: string)
    ensures |s| > 0 && forall i :: 0 <= i < |s| ==> IsDecimalDigit(s[i])
    ensures |s| == 1 <==> n < 10
  {
    if n < 10 then [('0' as int + n) as char] else DecimalString(n / 10) + [('0' as int + n % 10) as char]
  }

  /** A byte as the character with the same code. */
  function CharOf(b: uint8): char { (b as int) as char }

  /**
   * The text of an `array of AnsiChar` slot: its bytes as character codes,
   * ending before the first zero byte.
   */
  function AnsiText(bs: seq<uint8>): (s: string)
    ensures |s| <= |bs|
    ensures forall i :: 0 <= i < |s| ==> bs[i] != 0 && s[i] == CharOf(bs[i])
    ensures |s| < |bs| ==> bs[|s|] == 0
  {
    if |bs| == 0 || bs[0] == 0 then "" else [CharOf(bs[0])] + AnsiText(bs[1..])
  }

  /**
   * The tag `ReadRevisionIDOld` returns for a first byte and the seven bytes
   * after it: `"Old"` and the byte in decimal below 26; for `'B'` or `'S'`
   * that letter and the text of the seven bytes, with `BRES000` renamed
   * `BRES500`; nothing (JavaScript `undefined`) for any other first byte.
   */
  function TagOf(first: int, rest: seq<uint8>): Option<string>
  {
    if 0 <= first < 26 then Some("Old" + DecimalString(first))
    else if first == 'B' as int || first == 'S' as int then
      var t := [first as char] + AnsiText(rest);
      Some(if t == "BRES000" then "BRES500" else t)
    else None
  }

  /** How many bytes the tag occupies given its first byte. */
  function TagBytes(first: int): nat { if first < 26 then 1 else 8 }

  /** `String.prototype.substring(start, end)` for 0 <= start <= end: indices clamp to the length. */
  function Substring(s: string, start: nat, end: nat): string
    requires start <= end
  {
    var b := if start < |s| then start else |s|;
    var e := if end < |s| then end else |s|;
    s[b..e]
  }

  /** `parseInt(RevIDStr.substring(4, 7))`: None stands for NaN. */
  function RevisionOf(tag: string): Option<int>
  {
    ParseInt(Substring(tag, 4, 7))
  }

  /** Whether a revision that may be NaN compares above `k` (NaN compares above nothing). */
  predicate Above(rev: Option<int>, k: int) { rev.Some? && rev.value > k }

  lemma Bres500Revision()
    ensures RevisionOf("BRES500") == Some(500)
  {
    RevisionOfDigits("BRES500");
  }

  /**
   * A letter tag whose first six following bytes are text and whose
   * characters 4 to 6 are digits has the revision those digits spell, or
   * 500 when the tag was `BRES000`.
   */
  lemma RevisionOfLetterTag(first: int, rest: seq<uint8>)
    requires first == 'B' as int || first == 'S' as int
    requires |rest| == 7 && forall i :: 0 <= i < 6 ==> rest[i] != 0
    requires forall i :: 3 <= i < 6 ==> IsDecimalDigit(CharOf(rest[i]))
    ensures TagOf(first, rest).Some?
    ensures RevisionOf(TagOf(first, rest).value) == Some(
      if [first as char] + AnsiText(rest) == "BRES000" then 500
      else Decimal3(CharOf(rest[3]), CharOf(rest[4]), CharOf(rest[5])))
  {
    if [first as char] + AnsiText(rest) == "BRES000" {
      assert TagOf(first, rest) == Some("BRES500");
      Bres500Revision();
    } else {
      TagOfLetter(first, rest);
      LetterTagOther(first, rest);
    }
  }

  /** The text of a letter tag has the revision the digits of bytes 3 to 5 spell. */
  lemma LetterTagOther(first: int, rest: seq<uint8>)
    requires 0 <= first < 0x80
    requires |rest| == 7 && forall i :: 0 <= i < 6 ==> rest[i] != 0
    requires IsDecimalDigit(CharOf(rest[3])) && IsDecimalDigit(CharOf(rest[4])) && IsDecimalDigit(CharOf(rest[5]))
    ensures RevisionOf([first as char] + AnsiText(rest))
      == Some(Decimal3(CharOf(rest[3]), CharOf(rest[4]), CharOf(rest[5])))
  {
    var t := [first as char] + AnsiText(rest);
    LetterTagDigits(first, rest);
    RevisionOfDigits(t);
  }

  /** A letter tag other than `BRES000` is kept as read. */
  lemma TagOfLetter(first: int, rest: seq<uint8>)
    requires first == 'B' as int || first == 'S' as int
    requires [first as char] + AnsiText(rest) != "BRES000"
    ensures TagOf(first, rest) == Some([first as char] + AnsiText(rest))
  {
  }

  /** Characters 4 to 6 of the letter and the text are the bytes 3 to 5 of the text. */
  lemma LetterTagDigits(first: int, rest: seq<uint8>)
    requires 0 <= first < 0x80
    requires |rest| == 7 && forall i :: 0 <= i < 6 ==> rest[i] != 0
    ensures var t := [first as char] + AnsiText(rest);
      |t| >= 7 && t[4] == CharOf(rest[3]) && t[5] == CharOf(rest[4]) && t[6] == CharOf(rest[5])
  {
    assert |AnsiText(rest)| >= 6;
  }

  /** Digits at characters 4 to 6 of a tag are its revision. */
  lemma RevisionOfDigits(t: string)
    requires |t| >= 7 && IsDecimalDigit(t[4]) && IsDecimalDigit(t[5]) && IsDecimalDigit(t[6])
    ensures RevisionOf(t) == Some(Decimal3(t[4], t[5], t[6]))
  {
    var z := t[4..7];
    assert Substring(t, 4, 7) == z;
    assert z[0] == t[4] && z[1] == t[5] && z[2] == t[6];
    ParseDigits(z);
    ThreeDigitsValue(z);
  }

  /** The dead encoding `BRES000` is read as the first current revision, 500. */
  lemma RevisionOfBres000(rest: seq<uint8>)
    requires |rest| == 7 && AnsiText(rest) == "RES000"
    ensures TagOf('B' as int, rest) == Some("BRES500")
    ensures RevisionOf(TagOf('B' as int, rest).value) == Some(500)
  {
    assert ['B'] + AnsiText(rest) == "BRES000";
    Bres500Revision();
  }

  /**
   * For a first byte below 26 the tag is `"Old"` and the byte in decimal,
   * so characters 4 to 6 hold at most the second digit: the revision is
   * NaN below 10 and the last digit from 10 to 25.
   */
  lemma RevisionOfOldTag(val: nat)
    requires val < 26
    ensures TagOf(val, []) == Some("Old" + DecimalString(val))
    ensures RevisionOf("Old" + DecimalString(val)) == if val < 10 then None else Some(val % 10)
  {
    var t := "Old" + DecimalString(val);
    if val < 10 {
      assert Substring(t, 4, 7) == "";
    } else {
      assert DecimalString(val) == DecimalString(val / 10) + [('0' as int + val % 10) as char];
      assert |t| == 5;
      var z := Substring(t, 4, 7);
      assert z == [('0' as int + val % 10) as char];
      ParseDigits(z);
      assert DigitsValue(z, 10) == val % 10 by {
        assert z[..0] == [];
      }
    }
  }

  method ReadRevisionIDOld(r: ByteReader) returns (res: Result<string>)
    modifies r
    ensures res.Success? <==> (r.win.Within(old(r.pos), 1)
      && TagOf(r.win.U8At(old(r.pos)), r.win.Slice(old(r.pos) + 1, 7)).Some?
      && r.win.Within(old(r.pos), TagBytes(r.win.U8At(old(r.pos)))))
    ensures res.Success? ==> (Some(res.value) == TagOf(r.win.U8At(old(r.pos)), r.win.Slice(old(r.pos) + 1, 7))
      && r.pos == old(r.pos) + TagBytes(r.win.U8At(old(r.pos))))
    ensures res.Success? ==> |res.value| > 0 && (res.value[0] == 'B' <==> r.win.U8At(old(r.pos)) == 'B' as int)
    ensures res.Failure? && r.win.Within(old(r.pos), 1) && TagOf(r.win.U8At(old(r.pos)), r.win.Slice(old(r.pos) + 1, 7)).None?
      ==> res.error == UnknownMarker(r.win.U8At(old(r.pos)))
    ensures res.Failure? ==> res.error.ReadPastEnd? || res.error.UnknownMarker?
  {
    var val :- r.ReadByte();
    if val < 26 {
      return Success("Old" + DecimalString(val));
    } else if val == 'B' as int || val == 'S' as int {
      var rest :- r.ReadAnsiCharArray(7);
      var t := [val as char] + AnsiText(rest);
      assert t[0] == val as char;
      if t == "BRES000" {
        assert val == 'B' as int;
        t := "BRES500";
      }
      return Success(t);
    }
    // The JavaScript function returns undefined, and the caller's
    // `RevIDStr.substring` then throws.
    return Failure(UnknownMarker(val));
  }

  /** The bytes after the tag: what `ReadInitialFileInfo` reads for a `B` tag or another, at this revision. */
  function FileInfoBodySize(letterB: bool, rev: Option<int>): nat
  {
    12 + 1 + 1
    + (if Above(rev, 26) then 12 + 2 + 2 else 0)
    + (if letterB && Above(rev, 27) then 2 + 2 else 0)
    + 4
    + (if Above(rev, 32) then 1 else 0)
  }

  /** The bytes `ReadInitialFileInfo` consumes in all, given the tag's first byte and the revision. */
  function InitialFileInfoSize(first: int, rev: Option<int>): nat
  {
    TagBytes(first) + FileInfoBodySize(first == 'B' as int, rev)
  }

  /** The revision the initial file information at `p` names, if its tag is one. */
  function RevisionAt(w: Window, p: int): Option<int>
    requires TagOf(w.U8At(p), w.Slice(p + 1, 7)).Some?
  {
    RevisionOf(TagOf(w.U8At(p), w.Slice(p + 1, 7)).value)
  }

  /** The fields after the tag, all discarded; the board id is the last one every revision has. */
  method ReadFileInfoBody(r: ByteReader, revision: Option<int>, letterB: bool) returns (res: Result<int>)
    modifies r
    ensures res.Success? ==> r.win.Within(old(r.pos), FileInfoBodySize(letterB, revision))
    ensures res.Success? ==> r.pos == old(r.pos) + FileInfoBodySize(letterB, revision)
    ensures res.Failure? ==> !r.win.Within(old(r.pos), FileInfoBodySize(letterB, revision)) && res.error.ReadPastEnd?
  {
    var speciesStr :- r.ReadAnsiCharArray(12);
    var bNomTh :- r.ReadByte();
    var bNomWi :- r.ReadByte();
    if Above(revision, 26) {
      var qStr :- r.ReadAnsiCharArray(12);
      var cut1 :- r.ReadSmallInt();
      var cut2 :- r.ReadSmallInt();
    }
    if letterB && Above(revision, 27) {
      var add1 :- r.ReadSmallInt();
      var add2 :- r.ReadSmallInt();
    }
    var boardId :- r.ReadInteger();
    if Above(revision, 32) {
      var bDescr :- r.ReadByte();
    }
    return Success(boardId);
  }

  /**
   * Reads the tag, the species, the nominal sizes, the quality string and
   * cuts from revision 27, the two corrections of `B` files from revision
   * 28, the board id and the description byte from revision 33, and gives
   * back the revision. Everything but the revision is discarded.
   */
  method ReadInitialFileInfo(r: ByteReader) returns (res: Result<Option<int>>)
    modifies r
    ensures res.Success? <==> (r.win.Within(old(r.pos), 1)
      && TagOf(r.win.U8At(old(r.pos)), r.win.Slice(old(r.pos) + 1, 7)).Some?
      && r.win.Within(old(r.pos), InitialFileInfoSize(r.win.U8At(old(r.pos)), RevisionAt(r.win, old(r.pos)))))
    ensures res.Success? ==> (res.value == RevisionAt(r.win, old(r.pos))
      && r.pos == old(r.pos) + InitialFileInfoSize(r.win.U8At(old(r.pos)), res.value))
    ensures res.Failure? && r.win.Within(old(r.pos), 1) && TagOf(r.win.U8At(old(r.pos)), r.win.Slice(old(r.pos) + 1, 7)).None?
      ==> res.error == UnknownMarker(r.win.U8At(old(r.pos)))
    ensures res.Failure? ==> res.error.ReadPastEnd? || res.error.UnknownMarker?
  {
    ghost var p0 := r.pos;
    var revIDStr :- ReadRevisionIDOld(r);
    var revision := RevisionOf(revIDStr);
    ghost var first := r.win.U8At(p0);
    ghost var tagSize := TagBytes(first);
    ghost var bodySize := FileInfoBodySize(first == 'B' as int, revision);
    assert revision == RevisionAt(r.win, p0);
    assert r.win.Within(p0, tagSize + bodySize) <==> r.win.Within(p0 + tagSize, bodySize);
    var boardId :- ReadFileInfoBody(r, revision, revIDStr[0] == 'B');
    return Success(revision);
  }

  /** The batch block of revisions above 110: a size that is not used, and four names. */
  datatype BatchInfo = BatchInfo(speciesName: seq<uint8>, batchName: seq<uint8>, batchID: seq<uint8>, versConst: seq<uint8>)

  const BatchInfoSize: nat := 4 + 26 + 26 + 21 + 51

  function BatchInfoAt(w: Window, p: int): BatchInfo
  {
    BatchInfo(w.Slice(p + 4, 26), w.Slice(p + 30, 26), w.Slice(p + 56, 21), w.Slice(p + 77, 51))
  }

  /** The leading size is read but not obeyed: the block is always 128 bytes. */
  method ReadBatchInfo(r: ByteReader) returns (res: Result<BatchInfo>)
    modifies r
    ensures res.Success? ==> r.win.Within(old(r.pos), BatchInfoSize)
    ensures res.Success? ==> res.value == BatchInfoAt(r.win, old(r.pos)) && r.pos == old(r.pos) + BatchInfoSize
    ensures res.Failure? ==> !r.win.Within(old(r.pos), BatchInfoSize) && res.error.ReadPastEnd?
  {
    var size :- r.ReadInteger();
    var speciesName :- r.ReadShortString(25);
    var batchName :- r.ReadShortString(25);
    var batchID :- r.ReadShortString(20);
    var versConst :- r.ReadShortString(50);
    return Success(BatchInfo(speciesName, batchName, batchID, versConst));
  }
}
