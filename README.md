# BresReader in Dafny

A model of BresReader, the decoder of FinScan board-result files (BRES), with
proofs about it. A result file is a flat little-endian byte buffer. Its first
byte, or a seven-character tag after it, names a revision. The revision then
decides, field by field, what every record holds and how many bytes it takes.
Revisions come in two ranges: legacy ones (about 21 to 140) and current ones
(500 up). Most of the decoder's tests are gates over both ranges.

The model follows the decoder's own structure, one module per part of
`BresReader.js`:

- `Reader` is the byte cursor the decoder reads through. It is a class with a
  window (buffer, base, length) and a position, and it has the same primitive
  reads the source calls. Sub-readers bounded to a declared length are new
  `ByteReader`s on the same buffer.
- `Revision` covers the tag, the revision it names, the initial file
  information and the batch information.
- `Header` is the main header; `ResultHeader` is the BRES32 result header.
- `Defects`, `Thickness`, `EndSpy`, `MoistSpy`, `Texture` and `Slices` are
  the record readers of the board; `Board` and `BoardRecord` are the board
  record itself.
- `Bd` is the board-dimension block.
- `Solution`, `Intervals` and `Rules` are the grading solutions, their
  quality intervals and the thickness, width and grade rules.
- `Edger` is the edger strips and solutions.
- `Corrections` holds the changes the decoder makes after reading: the
  ManualGrade repack, the first and last defect slices, the legacy grading
  intervals and the raw widths.
- `Bres` is ReadBRES32Data and readBres.
- `BresDefs` models `bresDefs.js`: its enumerations and its two bit-set
  functions.

Every reading method is a method on the shared reader. It is proved against a
function of the window and the start position. That function gives the value
decoded and the position where the read ends. Lemmas about those functions
state the layouts: sizes per revision, counts, where fields sit, and what the
corrections keep and change. A JavaScript exception that the decoder would
throw is a `Failure` with its own error kind. These kinds are:

- a read past the end of the reader;
- an unknown first byte;
- a property read on `undefined`;
- a name that is not declared;
- an array length JavaScript refuses.

## Model

| member | source | states |
|---|---|---|
| `BresDefs.Int32Of` | bresDefs.js:16-18 | the number a bitwise operator returns is a signed 32-bit value whose pattern is the one it was given |
| `BresDefs.IsInSetIsBitTest` | bresDefs.js:6-11 | `isInSet(s, e)` holds exactly when bit `e mod 32` of the 32-bit pattern of `s` is set and that bit is not bit 31 |
| `BresDefs.IncludedPattern` | bresDefs.js:16-18 | the pattern `includeInSet(s, e)` returns is the pattern of `s` with bit `e mod 32` added |
| `BresDefs.IsInSetAfterInclude` | bresDefs.js:6-18 | a member 0..30 that was included is then in the set |
| `BresDefs.IncludeKeepsOtherMembers` | bresDefs.js:6-18 | including member `e` leaves the membership of every other member 0..30 as it was |
| `BresDefs.IncludeIdempotent` | bresDefs.js:16-18 | including the same member twice gives the set of including it once |
| `BresDefs.EmptySetHasNoMember` | bresDefs.js:6-11 | the empty set 0 holds no member |
| `BresDefs.IncludeWrapsAt32` | bresDefs.js:6-18 | member `e + 32` is set and looked up on the same bit as member `e`: the shift count is taken modulo 32 |
| `BresDefs.Member31NeverInSet` | bresDefs.js:6-11 | member 31 is never reported, as `(1 << 31) & s` is negative or zero |
| `BresDefs.DimUnitValuesDistinct` | bresDefs.js:27-30 | each dimension unit is named back by its own value, so no two share one |
| `BresDefs.DimUnitValuesConsecutive` | bresDefs.js:27-30 | the dimension unit values are exactly 0 and 1 |
| `BresDefs.SolTypeValuesDistinct` | bresDefs.js:32-38 | each solution type is named back by its own value |
| `BresDefs.SolTypeValuesConsecutive` | bresDefs.js:32-38 | the solution type values are exactly 0..4 |
| `BresDefs.OptSettings2ValuesDistinct` | bresDefs.js:93-106 | each second optimiser setting is named back by its own value |
| `BresDefs.OptSettings2ValuesConsecutive` | bresDefs.js:93-106 | the second optimiser setting values are exactly 0..11 |
| `BresDefs.MainDefectValuesDistinct` | bresDefs.js:358-391 | each main defect type is named back by its own value |
| `BresDefs.MainDefectValuesConsecutive` | bresDefs.js:358-391 | the main defect values are exactly 0..31 |
| `BresDefs.SubDefectValuesDistinct` | bresDefs.js:393-415 | each defect sub type is named back by its own value |
| `BresDefs.SubDefectValuesConsecutive` | bresDefs.js:393-415 | the defect sub type values are exactly 0..20 |
| `BresDefs.GradingIntervalValuesDistinct` | bresDefs.js:454-510 | each grading interval is named back by its own value |
| `BresDefs.GradingIntervalValuesConsecutive` | bresDefs.js:454-510 | the grading interval values are exactly 0..54 |
| `Revision.GateLegacyStep` | BresReader.js:1571 | a revision gate of the shape `rev > current or (rev < 500 and rev > legacy)` switches on at the legacy threshold and nowhere else below 500 |
| `Revision.GateCurrentStep` | BresReader.js:1571 | the same gate depends only on the current threshold from revision 500 on |
| `Revision.GateAtLeastIsGate` | BresReader.js:715 | the inclusive gate `rev >= current or (rev < 500 and rev >= legacy)` is the exclusive one with both thresholds one lower |
| `Revision.ParseDigits` | BresReader.js:38 | `parseInt` of a run of decimal digits is the number the digits spell |
| `Revision.ParseNegative` | BresReader.js:38 | a minus sign in front negates what `parseInt` gives without it, and NaN stays NaN |
| `Revision.ParseSkipsSpace` | BresReader.js:38 | leading white space does not change what `parseInt` gives |
| `Revision.ParseNonNumeric` | BresReader.js:38 | text that starts with neither white space, a sign nor a digit parses to NaN |
| `Revision.ThreeDigitsValue` | BresReader.js:38 | three decimal digits parse to hundreds, tens and units |
| `Revision.DigitsValueLast` | BresReader.js:38 | appending a digit multiplies the value by ten and adds the digit |
| `Revision.DecimalString` | BresReader.js:24-25 | `"Old" + val` prints at least one decimal digit, and a single one exactly below 10 |
| `Revision.AnsiText` | BresReader.js:29 | the text of a seven-character slot is its bytes as characters up to, not including, the first zero byte |
| `Revision.Bres500Revision` | BresReader.js:30-31 | the tag `BRES500` has revision 500 |
| `Revision.RevisionOfLetterTag` | BresReader.js:22-38 | a `B` or `S` tag whose characters 4 to 6 are digits is known and has the revision those digits spell, or 500 when the tag read `BRES000` |
| `Revision.LetterTagOther` | BresReader.js:28-38 | a letter and a text whose bytes 3 to 5 are digits have the revision those digits spell |
| `Revision.TagOfLetter` | BresReader.js:27-32 | a `B` or `S` tag other than `BRES000` is kept as read |
| `Revision.LetterTagDigits` | BresReader.js:29-38 | characters 4 to 6 of the tag are bytes 3 to 5 of the text after the letter |
| `Revision.RevisionOfDigits` | BresReader.js:38 | a tag whose characters 4 to 6 are digits has the revision they spell |
| `Revision.RevisionOfBres000` | BresReader.js:30-31 | the dead tag `BRES000` is replaced by `BRES500`, revision 500 |
| `Revision.RevisionOfOldTag` | BresReader.js:24-38 | a first byte below 26 gives the tag `"Old"` and the byte in decimal, whose revision is NaN below 10 and the last digit from 10 to 25 |
| `Revision.ReadRevisionIDOld` | BresReader.js:22-34 | succeeds exactly when the first byte and the whole tag can be read and the byte names a known tag; then gives that tag and moves past it; a byte that names none fails with that byte, and every failure is a short read or an unknown tag |
| `Revision.ReadFileInfoBody` | BresReader.js:40-59 | the species, the nominal sizes, the quality string and cuts from revision 27, the corrections of `B` files from 28, the board id and the description byte from 33: succeeds exactly when that many bytes fit, and moves past them |
| `Revision.ReadInitialFileInfo` | BresReader.js:36-62 | succeeds exactly when the tag is known and the whole initial information fits; gives the tag's revision and moves past the information; every failure is a short read or an unknown tag |
| `Revision.ReadBatchInfo` | BresReader.js:65-75 | reads the 128-byte batch block whatever its leading size says: succeeds exactly when it fits, gives its fields and moves 128 bytes |
| `Header.ReadHeaderIdent` | BresReader.js:359-366 | the status, the image source byte and the three short strings: the values the window holds there, each at its default when it does not fit; complete exactly when 227 bytes fit, and then 232 bytes on |
| `Header.ReadHeaderThickn` | BresReader.js:368-369 | the external and Suro thickness doubles, defaulted when cut short; complete exactly when the header reaches 248 bytes |
| `Header.ReadHeaderCuts` | BresReader.js:370-374 | the manual grade, the root and top cuts and the encoders; complete exactly when the header reaches 268 bytes |
| `Header.ReadHeaderLine` | BresReader.js:376-382 | the board id, the three unit ids and the lug and line numbers; complete exactly when the header reaches 292 bytes |
| `Header.ReadHeaderExtID` | BresReader.js:384-388 | the external board id at offset 300, 0 when cut short; complete exactly when 308 bytes fit, and then past the 4 alignment bytes |
| `Header.ReadHeaderStock` | BresReader.js:390-396 | the moisture, heartwood and stress grade fields; complete exactly when the header reaches 324 bytes |
| `Header.ReadHeaderEsID` | BresReader.js:398-402 | the EndSpy id at offset 328, 0 when cut short; complete exactly when the file name fits too, then past the 3 alignment bytes |
| `Header.SkipFileNames` | BresReader.js:404-407 | the four camera file names, 404 bytes: succeeds exactly when they fit |
| `Header.ReadHeaderCams` | BresReader.js:409-413 | the five camera profile ids, defaulted when cut short; complete exactly when the header reaches 856 bytes |
| `Header.ReadHeaderNova` | BresReader.js:415-423 | the second EndSpy id and the Nova tail; complete exactly when the header reaches 976 bytes |
| `Header.SkipNovaTail` | BresReader.js:416-423 | the second file name, three bytes and two ids, 112 bytes: succeeds exactly when they fit |
| `Header.ReadHeaderFront` | BresReader.js:359-388 | parts up to the external board id, as the window holds them or defaulted |
| `Header.ReadHeaderBack` | BresReader.js:390-423 | the parts after the external board id, as the window holds them or defaulted |
| `Header.ReadMainHeader` | BresReader.js:324-433 | never fails: every field is the one the window holds when the read of it and of all before it fits, and its initial value otherwise |
| `Header.HeaderEmpty` | BresReader.js:327-360 | a window that cannot hold the status and image source byte leaves every field at its initial value |
| `Header.HeaderComplete` | BresReader.js:358-427 | a window of at least 864 bytes yields every field as read |
| `Header.Header312` | BresReader.js:358-430 | a 312-byte header (revisions before 41) yields the fields up to the external board id and defaults the rest |
| `Header.HeaderUpTo840` | BresReader.js:358-430 | the 336-, 440- and 840-byte headers yield everything but the camera profile ids and the Nova part |
| `Header.MainHeaderReadLenCases` | BresReader.js:1386-1400 | the header length: the stored size above revision 104, 840 for 101-104, 312 below 41, otherwise the stored size when it is 440 or 336 and 336 else; below 105 it is one of 312, 336, 440, 840 |
| `ResultHeader.ReadRemanStats` | BresReader.js:77-87 | three doubles and a count at the position, 32 bytes with the 4 alignment bytes; fails exactly when the 28 read bytes do not fit |
| `ResultHeader.ReadResultValues` | BresReader.js:110-117 | the solution type byte and the six doubles stored after it; 49 bytes, failing exactly when they do not fit |
| `ResultHeader.ReadResultDims` | BresReader.js:118-124 | the six integers and the board type word; 26 bytes, failing exactly when they do not fit |
| `ResultHeader.ReadResultFlags` | BresReader.js:125-143 | the option flags as a byte below revision 51, a word up to 67 and a cardinal after, the second flags where stored (else 0) with the edger and one-scan-direction options added for trim, edging and upside-down solutions below revision 128 |
| `ResultHeader.SkipSpare` | BresReader.js:145-153 | the six unused integers of revision 33 and the end-adjust byte are passed over, exactly when they fit |
| `ResultHeader.ReadResultExtras` | BresReader.js:156-164 | the nine values added in revision 40, 33 bytes; fails exactly when they do not fit |
| `ResultHeader.ReadGradeCode` | BresReader.js:172-178 | a 25-character text in the text revisions (above 517, 138 to 499), otherwise the stored integer |
| `ResultHeader.ReadAltGrade` | BresReader.js:169-181 | the alternative grade: grade, quality, grade code, product and sort class as the window holds them |
| `ResultHeader.ReadOptionalExtras` | BresReader.js:155-165 | the extras read only above revision 39, nothing consumed otherwise |
| `ResultHeader.ReadOptionalAlt` | BresReader.js:169-181 | the alternative grade read only above revision 82 |
| `ResultHeader.ReadRemanPair` | BresReader.js:183-186 | the optimiser and BCS remanufacturing statistics read only above revision 93, one after the other |
| `ResultHeader.ReadResultOptions` | BresReader.js:155-186 | the three optional blocks in order, each as the window holds it at its own offset |
| `ResultHeader.ReadResultFront` | BresReader.js:110-153 | values, dimensions and flags at their fixed offsets, the flags adjusted by the solution type just read |
| `ResultHeader.ReadResultHead` | BresReader.js:110-186 | everything before the length items, decoded from the window at the position |
| `ResultHeader.ReadQNumbers` | BresReader.js:226-230 | quality, grade code, product, sort class and dimension unit, the five integers stored in order |
| `ResultHeader.ReadQIdentNew` | BresReader.js:222-233 | the grade name, the five integers after the 3 alignment bytes and the trim rule, 36 bytes; the grade code integer returned beside the identity |
| `ResultHeader.ReadQReasons` | BresReader.js:255-268 | the two cut reasons, and the nominal length as stored above revision 112, 300 and 300 otherwise |
| `ResultHeader.ReadQCode` | BresReader.js:270-279 | the text grade code and the 50 vacant bytes after it in the text revisions, else the integer read earlier, consuming nothing |
| `ResultHeader.ReadQItemNew` | BresReader.js:221-279 | an item of the current layout: identity, the nine module integers and nine singles, the reasons and the grade code, each from its offset |
| `ResultHeader.ReadQIdentOld` | BresReader.js:282-289 | the two singles, the grade name and the five integers of the old layout, 37 bytes |
| `ResultHeader.ReadQModsOld` | BresReader.js:290-299 | the eight module and cut integers and the module length past the trim byte, 37 bytes |
| `ResultHeader.ReadQItemOld` | BresReader.js:281-313 | an item of the old layout, 74 bytes, 110 above revision 34 where the nine singles follow |
| `ResultHeader.ReadQItem` | BresReader.js:221-313 | the layout chosen by revision 38, the item decoded at the position and its size taken |
| `ResultHeader.ReadQItems` | BresReader.js:219-314 | `NrQItems` items back to back, none for a count below 1, each decoded at its own offset |
| `ResultHeader.ReadWItem` | BresReader.js:208-315 | a width item: two doubles and four integers, then its quality items; its size is read from the window |
| `ResultHeader.ReadNextWItem` | BresReader.js:208-215 | one more width item appended to a chain: its start is where the item before it ended |
| `ResultHeader.ReadWItems` | BresReader.js:207-315 | `NrWItems` width items, each starting where the one before ends |
| `ResultHeader.ReadLItemHead` | BresReader.js:192-204 | the two positions, the middle part and the width-item count, failing exactly when they do not fit |
| `ResultHeader.ReadLItemMid` | BresReader.js:195-203 | the two singles (each followed by an unused single) above revision 52 and the remanufacture solution byte above 58 |
| `ResultHeader.ReadLItemTail` | BresReader.js:316-318 | the edging solution, the parallel displacement and the six positioning arms, 101 bytes |
| `ResultHeader.ReadLItem` | BresReader.js:190-319 | a length item: head, its width items, then its tail where the width items end |
| `ResultHeader.ReadNextLItem` | BresReader.js:190-319 | one more length item appended to a chain |
| `ResultHeader.ReadLItems` | BresReader.js:188-319 | `NrLItems` length items, each decoded where the one before ends |
| `ResultHeader.ReadResultHeader` | BresReader.js:107-322 | the whole result header decoded from the window and its extent computed from the stored counts |
| `ResultHeader.QItemSizes` | BresReader.js:219-313 | a quality item takes 74, 110, 112, 120 or 196 bytes according to the revision range |
| `ResultHeader.SignedSameBits` | BresReader.js:130 | an unsigned and a signed read of the same four bytes give the same bits |
| `ResultHeader.HeaderFlagsAsSolutionFlags` | BresReader.js:125-143 | as sets of options the header's flags equal those a solution record reads from the same bytes |
| `ResultHeader.WItemSizeAtLeast` | BresReader.js:208-215 | every width item takes at least 32 bytes |
| `ResultHeader.LItemSizeAtLeast` | BresReader.js:190-318 | every length item takes at least its head and its 101-byte tail |
| `ResultHeader.LItemChainLayout` | BresReader.js:190-319 | item `i` of a chain is the one decoded where the items before it end, and lies inside the chain |
| `ResultHeader.LItemsLayout` | BresReader.js:188-321 | length item `i` of the header lies between the count and the header's end, at least `i` minimal items in |
| `Edger.ReadPosArm` | BresReader.js:92-102 | one arm's position, type, displacement and used flag, 16 bytes with alignment; fails exactly when the 13 read bytes do not fit |
| `Edger.PosArmsAt` | BresReader.js:89-105 | always six arms |
| `Edger.ReadPosArms` | BresReader.js:89-105 | the six arms 16 bytes apart as the window holds them, 96 bytes; fails exactly when the first 93 do not fit |
| `Edger.ReadStripSolHead` | BresReader.js:2321-2327 | the solution type, the three values and the dimension unit at their aligned offsets; 36 bytes, failing exactly when the 33 read do not fit |
| `Edger.ReadStripSolReasons` | BresReader.js:2353-2364 | the option flags, the two cut reasons and the reject reason at their offsets among the skipped fields; 32 bytes |
| `Edger.ReadStripSolTail` | BresReader.js:2353-2367 | reasons, displacement and protocol version, 44 bytes; fails exactly when the 40 read do not fit |
| `Edger.ReadStripSolFront` | BresReader.js:2321-2334 | head, the five indices and the raw width, 64 bytes |
| `Edger.ReadStripSolCuts` | BresReader.js:2336-2351 | the seven cut integers and the eight singles, 60 bytes |
| `Edger.ReadStripSolution` | BresReader.js:2320-2367 | one strip solution decoded from the window, 168 bytes |
| `Edger.StripSolutionsAt` | BresReader.js:2319-2368 | exactly `n` solutions |
| `Edger.ReadStripSolutions` | BresReader.js:2319-2368 | the solutions the count declares, 168 bytes apart; none and no failure when the count is not positive |
| `Edger.ReadStripEdge` | BresReader.js:2302-2311 | one edge: coordinate, edge index and cut flag, 16 bytes |
| `Edger.ClampSolutions` | BresReader.js:2313-2315 | the count lowered to 16 when above, unchanged otherwise |
| `Edger.ReadSolutionTable` | BresReader.js:2318-2369 | the declared solutions, then the skip over the remaining (16 - n) slots, also when n is negative |
| `Edger.ReadStrip` | BresReader.js:2299-2372 | a strip decoded from the window, its extent given by the clamped count |
| `Edger.StripSolutionsBounded` | BresReader.js:2313-2319 | a strip never holds more than 16 solutions, and holds all it declares when the count is not negative |
| `Edger.StripSizeFixed` | BresReader.js:2369 | a non-negative count gives 2728 bytes; a negative count makes the skip longer by 168 per unit |
| `Edger.StripsAt` | BresReader.js:2387-2389 | exactly `n` strips |
| `Edger.StripPosStep` | BresReader.js:2387-2389 | each strip starts where the one before it ends |
| `Edger.ReadStrips` | BresReader.js:2386-2389 | the strips, each decoded at its own start |
| `Edger.StripPosRegular` | BresReader.js:2369 | with no negative count strip `n` starts 2728 * n bytes in |
| `Edger.StripSizeAtLeast` | BresReader.js:2369 | a strip never takes less than 2728 bytes |
| `Edger.StripPosMonotone` | BresReader.js:2387-2389 | strip starts are at least 2728 bytes apart |
| `Edger.ReadEdgPlacement` | BresReader.js:2382-2385 | the angle, the y position and the reject reason, 24 bytes |
| `Edger.ReadEdgSolHead` | BresReader.js:2377-2385 | type, values and placement of an edger solution, 56 bytes |
| `Edger.ReadEdgSolCounts` | BresReader.js:2390-2393 | strip count, execution time and arm count, 20 bytes |
| `Edger.ReadEdgSolTrim` | BresReader.js:2396-2401 | the trim flag, largest coordinate, the two trim positions and the offset, 20 bytes |
| `Edger.ReadEdgSolTail` | BresReader.js:2390-2401 | counts, arms and trim settings, 136 bytes |
| `Edger.ReadEdgSol` | BresReader.js:2374-2404 | an edger solution decoded from the window, its size given by its strips |
| `Edger.EdgSolSizeRegular` | BresReader.js:2374-2404 | with no negative strip count an edger solution takes 43840 bytes |
| `Edger.EdgSolSizeAtLeast` | BresReader.js:2374-2404 | an edger solution takes at least 43840 bytes |
| `Defects.CorrectSubType` | BresReader.js:442-449 | a blue stain of a revision without graded blue stain (not 99, 100 or above 106) becomes light; every other sub type is kept |
| `Defects.CorrectSplitWidth` | BresReader.js:455-460 | a split below revision 109 has its width cleared; every other width is kept |
| `Defects.DefectShape` | BresReader.js:473-496 | a decoded defect has as many points as its count says (none for a negative count), exactly 20 knot words, a centre block exactly above revision 33, and the size these imply |
| `Defects.DefectCorrections` | BresReader.js:440-460 | both corrections hold of every decoded defect, and a defect they do not touch keeps the type byte minus one and the stored width |
| `Defects.CorrectionsIdempotent` | BresReader.js:442-460 | applying either correction a second time changes nothing |
| `Defects.ReadDefectHead` | BresReader.js:440-471 | the three type bytes minus one and the ten smallints, corrected; 23 bytes, failing exactly when they do not fit |
| `Defects.ReadDefectCentre` | BresReader.js:474-481 | the centre, the two diameters and the Z value, with the vacant word; 12 bytes |
| `Defects.ReadDefectFront` | BresReader.js:440-482 | the head and, above revision 33, the centre block |
| `Defects.ReadDefectOutline` | BresReader.js:484-496 | the point count, that many points and the 20 knot words; fails exactly when they do not fit |
| `Defects.ReadDefect` | BresReader.js:439-496 | one defect decoded from the window, failing exactly when its extent does not fit |
| `Defects.DefectsAt` | BresReader.js:438-497 | exactly `n` defects |
| `Defects.DefectsAtStep` | BresReader.js:438-497 | reading the defect where the run ends extends the run by it |
| `Defects.DefectPosMonotone` | BresReader.js:438-497 | later defects start no earlier |
| `Defects.DefectsSizeAtLeast` | BresReader.js:438-497 | every defect takes at least 65 bytes |
| `Defects.ReadDefectsFromStream` | BresReader.js:435-500 | `ND` defects back to back (none when `ND` is not positive); fails exactly when their whole extent does not fit |
| `Defects.DefectsTooLong` | BresReader.js:438-497 | when one defect of a run does not fit, the run does not |
| `Defects.ExtDefectInfoLayout` | BresReader.js:505-533 | an extended record takes 36, 40 or 52 bytes by revision, its last read inside it |
| `Defects.ExtCompIxRange` | BresReader.js:511-531 | component indices are bytes below the wide revisions and words in them |
| `Defects.ReadCompIxWords` | BresReader.js:520-526 | the four component words, then the vacant bytes |
| `Defects.ReadCompIxBytes` | BresReader.js:511-514 | the four side bytes |
| `Defects.ReadExtBase` | BresReader.js:507-518 | the two slice numbers and the side bytes past the 8 skipped bytes; the diameter above revision 55 is read and not kept |
| `Defects.ReadExtDefectInfo` | BresReader.js:506-532 | an extended record with words as component indices in the wide revisions (above 526, 139 to 499), the side bytes otherwise |
| `Defects.ExtDefectInfosAt` | BresReader.js:505-533 | exactly `n` records |
| `Defects.ReadExtDefectInfosToStream` | BresReader.js:502-535 | `ND` records one record size apart; fails exactly when the last record's reads do not fit |
| `Defects.CombiDefectTypesRaw` | BresReader.js:542-543 | the types of a combined defect are the stored bytes, not lowered by one |
| `Defects.ReadCombiDefectHead` | BresReader.js:542-554 | the two type bytes and the nine smallints, 22 bytes |
| `Defects.ReadCombiSlices` | BresReader.js:555-566 | the side bytes, the pith flag and pith position passed over, then the two slice numbers |
| `Defects.ReadCombiDefect` | BresReader.js:541-579 | one combined defect with component words in the wide revisions, side bytes otherwise |
| `Defects.CombiDefectsAt` | BresReader.js:540-580 | exactly `n` combined defects |
| `Defects.ReadCombiDefectsFromStream` | BresReader.js:537-582 | `NC` combined defects one record size apart; fails exactly when the last one's reads do not fit |
| `Defects.ScanStop` | BresReader.js:2181-2183 | the scan passes only slices below `x` and stops at the first slice not below it, or one past the last |
| `Defects.FindSliceNum` | BresReader.js:2179-2189 | the loop returns the slice of the reference definition |
| `Defects.SliceNumBounds` | BresReader.js:2179-2189 | the slice found is at least the start and 1; a slice past the start lies below `x` with all those before it, and the next is not below `x` |
| `Defects.ScanStopMonotone` | BresReader.js:2181-2183 | the scan stops no earlier for a larger target |
| `Defects.SliceNumMonotone` | BresReader.js:2179-2189 | a larger X never gives an earlier slice |
| `Defects.SetFirstAndLastDefectSlices` | BresReader.js:2191-2197 | every record gets the first slice searched from 1 for X1 and the last searched from that first slice for X2; nothing else changes |
| `Defects.DefectSlicesOrdered` | BresReader.js:2191-2197 | a defect's first slice is at least 1 and its last no earlier |
| `Defects.SliceNumRestart` | BresReader.js:2194 | restarting the scan at a slice still below the target finds the same slice |
| `Defects.ScanStopFrom` | BresReader.js:2181-2183 | a scan that passes a slice stops where the scan started there stops |
| `Thickness.ThicknHeadReadInside` | BresReader.js:654-722 | the last read of a head record lies inside the record |
| `Thickness.ThicknHeadLayout` | BresReader.js:654-722 | a head record takes 92 bytes up to revision 48, 216 up to 59, 248 in the board-width revisions (132 to 499, 517 on) and 224 otherwise |
| `Thickness.ThicknHeadsAt` | BresReader.js:652-723 | exactly `n` heads |
| `Thickness.ThicknHeadDefaults` | BresReader.js:657-722 | 10 or 40 profile points by revision; up to 48 the lower cup equals the upper and the extra thicknesses are 0; up to 59 both valid values are 1; without board widths those are 0 and no temperature |
| `Thickness.ReadThicknStatus` | BresReader.js:692-698 | the 36 skipped error bytes, the error word and the data counter; 44 bytes |
| `Thickness.ReadThicknExtras` | BresReader.js:707-722 | the two thicknesses above 48, the valid values above 59 and the board widths, temperature flag and vacant bytes in the board-width revisions |
| `Thickness.ReadThicknFront` | BresReader.js:654-669 | identifier, thickness and the profile points as pairs of smallints |
| `Thickness.ReadThicknHead` | BresReader.js:653-722 | one head decoded from the window; fails exactly when its reads do not fit |
| `Thickness.ThicknExtrasDefault` | BresReader.js:700-706 | up to revision 48 the extras are the defaults the source sets |
| `Thickness.ReadThicknHeads` | BresReader.js:652-723 | the heads one record size apart; fails exactly when the last head's reads do not fit |
| `Thickness.ReadThicknData` | BresReader.js:643-765 | four heads from revision 132, `NrHeads` before; when they fit the result is the reference decode of the heads read, otherwise past-the-end |
| `Thickness.ThicknDataUndefined` | BresReader.js:646-728 | the conversion reaches a head that was never read exactly for revisions 132 to 499 with more than four heads declared |
| `Thickness.ThicknDataHeads` | BresReader.js:726-762 | below revision 500 the first `NrHeads` heads get their error word converted, free of bits 0 and 8 and within 16 bits; everything else is kept as read |
| `Thickness.ConvertedHeads` | BresReader.js:727-761 | the conversion keeps the number of heads |
| `Thickness.ConvertThErrors` | BresReader.js:726-762 | the loop succeeds exactly when every head it converts was read, then yields the reference conversion; otherwise an undefined access |
| `Thickness.ConvertThError` | BresReader.js:728-760 | the bit tests in order yield the reference conversion of one word |
| `Thickness.ConvertThErrorLow` | BresReader.js:731-738 | legacy bits 0 to 3 |
| `Thickness.ConvertThErrorMiddle` | BresReader.js:739-746 | legacy bits 4 to 7, bit 7 landing on bit 3 |
| `Thickness.ConvertThErrorHigh` | BresReader.js:747-760 | legacy bits 8 to 14, each moved up one |
| `Thickness.NovaErrorBits` | BresReader.js:728-760 | bit m of a converted word is set exactly when some legacy bit that maps to m is set |
| `Thickness.NovaErrorFreeBits` | BresReader.js:731-760 | no converted word has bit 0 or bit 8 |
| `Thickness.NovaErrorAfterBelow` | BresReader.js:731-760 | a converted word fits in 16 bits |
| `Thickness.NovaErrorSingle` | BresReader.js:731-760 | a single legacy bit converts to exactly its mask |
| `Thickness.NovaErrorDropsBit15` | BresReader.js:728-760 | legacy bit 15 has no image |
| `EndSpy.SplitTypeHasEdgeVoids` | BresReader.js:848-894 | the revisions storing split types all store edge voids, and those storing cup shapes store species and split types |
| `EndSpy.ReadECtoBOA` | BresReader.js:767-785 | the end-camera block decoded from the window, 36 bytes; fails exactly when the 33 read do not fit |
| `EndSpy.EsFrontSizes` | BresReader.js:793-859 | the fixed front takes 60 bytes up to revision 92, 216 where the stain block is stored (100, above 107) and 180 otherwise |
| `EndSpy.ReadEsHead` | BresReader.js:793-797 | the board id, the frame time and the run direction past the alignment word, 20 bytes |
| `EndSpy.ReadEsGaps` | BresReader.js:798-807 | the ten singles of position, size, gaps and grain, 40 bytes |
| `EndSpy.ReadEsV93` | BresReader.js:834-844 | warp, light level, rejection, log position and the 100-character board file name with its alignment, 120 bytes |
| `EndSpy.ReadEsShake` | BresReader.js:848-855 | in the edge-void revisions (502 on, 116 to 499) the void percent and a single shake length; otherwise an integer shake length and no void percent |
| `EndSpy.ReadEsV108` | BresReader.js:845-859 | stain and rot percents, the shake block and the tree age; the two time stamps are read and dropped |
| `EndSpy.ReadEsIdent` | BresReader.js:793-807 | head and gaps, 60 bytes |
| `EndSpy.ReadEsStain` | BresReader.js:834-859 | the revision-93 block above 92 and the revision-108 block in 100 and above 107, their defaults otherwise |
| `EndSpy.ReadEsFront` | BresReader.js:793-859 | the front decoded from the window, failing exactly when it does not fit |
| `EndSpy.SplitSlotIsSplit` | BresReader.js:866-881 | a skipped split slot is as wide as a split read: 40 bytes, 44 with split types |
| `EndSpy.ReadEndSplit` | BresReader.js:865-873 | one split: width and length after the 16 skipped bytes, and the split type where stored |
| `EndSpy.EndSplitsAt` | BresReader.js:864-874 | exactly `n` splits |
| `EndSpy.ReadEndSplits` | BresReader.js:864-874 | the declared splits one slot apart, none for a count below 1 |
| `EndSpy.ReadEsCup` | BresReader.js:895-899 | the three cup offsets and the pith's x |
| `EndSpy.ReadEsPith` | BresReader.js:900-903 | the pith's y, relative value and quadrant, and the roughness |
| `EndSpy.ReadEsV128` | BresReader.js:895-904 | cup and pith block and the 37 vacant words, 180 bytes |
| `EndSpy.ReadEsShape` | BresReader.js:888-905 | the camera number dropped, then species and dark stain from 122 (508), cup and pith from 128 (514) |
| `EndSpy.ReadEsLate` | BresReader.js:888-909 | the shape blocks, the end-camera block and the alignment word of revisions 118-127 and 503-513 |
| `EndSpy.SplitAreaFixed` | BresReader.js:875-882 | with a non-negative count the split table takes its full capacity of slots, whatever the count |
| `EndSpy.SkipSplitTail` | BresReader.js:882-886 | the unused slots (the count below capacity, or beyond it when negative) and the defect areas are skipped |
| `EndSpy.ReadEsSplitTable` | BresReader.js:862-886 | the split count and the splits it declares; the table's extent follows from the count |
| `EndSpy.ReadEsSplitBack` | BresReader.js:861-910 | the back of revisions above 114: the split table then the late blocks |
| `EndSpy.ReadEsLegacyBack` | BresReader.js:911-916 | revisions 112-114: the end-camera block, the split count and 1128 skipped bytes |
| `EndSpy.ReadEsBack` | BresReader.js:861-919 | the back chosen by revision, with the trailing alignment word of revisions up to 107 (not 100), 115, 500 and 501 |
| `EndSpy.ReadEndSpyResult` | BresReader.js:787-941 | the record: the front decoded at the position and the back where the front ends |
| `EndSpy.EndSpySizeTable` | BresReader.js:787-919 | with a non-negative split count the record's size depends on the revision alone |
| `EndSpy.EndSpySizes` | BresReader.js:918-939 | 64, 184, 216, 1384, 1392, 2676, 2800, 2808 or 2984 bytes per revision range |
| `MoistSpy.ReadMSSignalHead` | BresReader.js:953-956 | the status and the 64-bit encoder count past the alignment word; the time stamp is read and dropped; 24 bytes |
| `MoistSpy.ReadFourSingles` | BresReader.js:957-960 | the four phase and attenuation singles in order |
| `MoistSpy.ReadMSSignal` | BresReader.js:953-960 | the signal block of a sensor record, 40 bytes |
| `MoistSpy.ReadFourDoubles` | BresReader.js:961-964 | the four sensor doubles in order |
| `MoistSpy.ReadMSSensor` | BresReader.js:961-964 | sensor thickness, moisture and the two model values, 32 bytes |
| `MoistSpy.ReadMSResHead` | BresReader.js:953-964 | signal and sensor blocks, 72 bytes |
| `MoistSpy.ReadMSResPoints` | BresReader.js:974-983 | the ten point and window words, 20 bytes |
| `MoistSpy.ReadMSErrFlags` | BresReader.js:965-973 | the error flags, then 4 skipped bytes from revision 500 and 2 read bytes before |
| `MoistSpy.ReadMSWane` | BresReader.js:984-989 | the wane percentage and the dummy word, with two alignment bytes before revision 500 |
| `MoistSpy.ReadMSFlagsRest` | BresReader.js:974-990 | points, wane percentage and adjusted moisture at their offsets for the revision |
| `MoistSpy.ReadMSResFlags` | BresReader.js:965-990 | the flag block, 40 bytes in every revision |
| `MoistSpy.ReadMSRawData` | BresReader.js:991-999 | the 182 vacant words skipped, then 200 attenuation and 200 phase singles |
| `MoistSpy.ReadMSResFront` | BresReader.js:953-990 | the head and the flag block, 112 bytes |
| `MoistSpy.ReadMSRes` | BresReader.js:952-999 | one sensor record, 2440 bytes, failing exactly when it does not fit |
| `MoistSpy.MSResRunAt` | BresReader.js:951-1000 | exactly `n` records |
| `MoistSpy.ReadMSResList` | BresReader.js:951-1000 | the records the count declares, 2440 bytes apart; none for a count below 1 |
| `MoistSpy.ReadFilterStats` | BresReader.js:1023-1028 | the frozen flag, average, deviation and no-filter reason with their alignment, 16 bytes |
| `MoistSpy.ReadFilterBoard` | BresReader.js:1029-1037 | temperatures, moisture and the filtering count, the unused fields and 44 vacant bytes skipped, 72 bytes |
| `MoistSpy.ReadMoistFilter` | BresReader.js:1022-1038 | the filtering block, 88 bytes |
| `MoistSpy.ReadMSTable` | BresReader.js:947-1001 | the count, the declared records and the skip over the remaining (8 - count) slots |
| `MoistSpy.ReadMoistReadings` | BresReader.js:1003-1012 | the declared sensor moistures, the skipped slots and densities, then the board moisture; the density is read and dropped |
| `MoistSpy.ReadMoistTail` | BresReader.js:1003-1038 | the moisture readings and, in revisions above 512 and 127 to 499, the filtering block; the defaults otherwise |
| `MoistSpy.ReadMoistSpyResult` | BresReader.js:943-1041 | the record decoded from the window, its lists as long as the count says |
| `MoistSpy.MoistSpySizes` | BresReader.js:947-1038 | with a count of 0 to 8 the record takes 19600 bytes, 19688 with the filtering block |
| `MoistSpy.FixGates` | BresReader.js:1518-1547 | the revision ranges of the corrections are nested |
| `MoistSpy.FixMoistSpy` | BresReader.js:1518-1550 | the loop over the declared sensors and the filter step give the reference correction |
| `MoistSpy.MoistSpyFixIdempotent` | BresReader.js:1518-1550 | correcting twice is correcting once |
| `MoistSpy.FixedMSResIdempotent` | BresReader.js:1519-1545 | a sensor record corrected twice is corrected once |
| `MoistSpy.MoistSpyFixKeeps` | BresReader.js:1518-1550 | the count, the moisture lists, each record's status, encoder, samples and sensor positions are kept, and newer revisions are left alone |
| `MoistSpy.MoistSpyFixZeroes` | BresReader.js:1520-1544 | in the oldest revisions the later fields are zero and the sensor moisture is zero only when both it and the list's are |
| `MoistSpy.MoistSpyFixFilter` | BresReader.js:1547-1550 | the filter count becomes 50 exactly when the average is positive, and the filter is kept otherwise |
| `Texture.TextureCams` | BresReader.js:1044-1048 | the texture grid has 3, 6 or 10 cameras |
| `Texture.XuArrayIsGrid` | BresReader.js:585-640 | the empty-texture array skipped is one entry per slice (132) per camera |
| `Texture.XuSkipEntries` | BresReader.js:585-640 | the array and the sum skipped together are a whole number of entries |
| `Texture.ReadXuTexture` | BresReader.js:584-641 | succeeds exactly when the empty-texture count fits; the count as stored, and the whole block of the revision passed over |
| `Texture.XuTextureSizes` | BresReader.js:600-640 | the block takes 52844, 31724, 15884, 13502 or 4768 bytes per revision range |
| `Texture.SkipPDEntry` | BresReader.js:1055-1062 | one grid entry: six integers read and dropped, the X position skipped, 28 bytes |
| `Texture.SkipPDEntries` | BresReader.js:1054-1063 | `n` grid entries; fails exactly when the last one's reads do not fit |
| `Texture.ReadTexturePoints` | BresReader.js:1043-1065 | the slice count and the turner as stored, and the grid of 132 entries per camera passed over |
| `Texture.TexturePointsSizes` | BresReader.js:1043-1065 | the block takes 36968, 22184 or 11096 bytes by revision |
| `Texture.SweepCamsFrom505` | BresReader.js:1073-1088 | each camera has its sweep count stored from revision 505, one count is stored before |
| `Texture.LeadingPositive` | BresReader.js:1095-1102 | the number of leading positive sweep counts: all before it are positive, the next is not |
| `Texture.LeadingPositiveUnique` | BresReader.js:1095-1102 | those three properties determine the count |
| `Texture.CountLiveCams` | BresReader.js:1095-1102 | the counting loop with its early exit gives the number of leading positive sweep counts |
| `Texture.SliceCountOf` | BresReader.js:1104-1106 | a stored slice count of 0 becomes 128, any other is kept |
| `Texture.RowsBeforeMonotone` | BresReader.js:1109-1133 | the rows of the first `c` cameras never exceed those of the first `n` |
| `Texture.RowsBeforeFixed` | BresReader.js:1110-1112 | before revision 525 each camera has 800 rows |
| `Texture.SkipCameraImage` | BresReader.js:1110-1132 | a camera's row array is allocated (or the allocation fails with an invalid length), then its rows of 396 bytes are read |
| `Texture.SkipImages` | BresReader.js:1109-1133 | the images of all cameras; an invalid length exactly names a camera whose row count is not allocatable |
| `Texture.ReadSliceHead` | BresReader.js:1069-1106 | the stored camera count (or the live cameras when 0), the sweep counts and the slice count |
| `Texture.ReadSliceData2` | BresReader.js:1067-1151 | the head as stored, and the block's whole extent when every array can be allocated; otherwise an invalid length or a read past the end |
| `Texture.SliceDataFixedSizes` | BresReader.js:1108-1148 | before revision 525 the block takes 961792, 1914636 or 3242736 bytes |
| `Texture.SliceDataSizeCurrent` | BresReader.js:1108-1148 | from revision 525 the images take one row per sweep of each stored camera |
| `Texture.SliceHeadCams` | BresReader.js:1069-1106 | a non-zero camera count is kept; a zero becomes at most the cameras (and stays 0 from 525); the slice count is never 0 |
| `Slices.ReadTextureSides` | BresReader.js:1555-1558 | the four texture blocks (up, down, front, rear) one block size apart |
| `Slices.ReadSliceDataPair` | BresReader.js:1560-1561 | two slice-data blocks, the second where the first ends; an invalid length only when one of their arrays cannot be allocated |
| `Slices.ReadSliceDataSides` | BresReader.js:1560-1563 | the four slice-data blocks in order, each where the one before ends |
| `Slices.ReadBoardSlices` | BresReader.js:1552-1565 | above revision 108 the block size, and the texture and slice-data blocks of the four sides when it is positive; nothing otherwise; an invalid length only when an array of those sides cannot be allocated |
| `Slices.PlsEntryAt` | BresReader.js:1574-1575 | the stored index lowered to 100 when above, so every index lies in 0..100 |
| `Slices.ReadPlsEntry` | BresReader.js:1574-1577 | one entry: the clamped index, the 256-character name and the double |
| `Slices.ReadPlsEntries` | BresReader.js:1573-1578 | the entries in order, each stored under its index, later ones overwriting earlier ones |
| `Slices.ReadBoardPls` | BresReader.js:1567-1579 | the count and its entries in the PLS revisions (above 505, 120 to 499), empty maps otherwise |
| `Slices.BoardSlicesFixedSize` | BresReader.js:1552-1565 | before revision 525 a present block takes its size word, four texture blocks and four slice-data blocks of fixed size |
| `Slices.PlsNamesKeys` | BresReader.js:1573-1578 | an index holds a name exactly when some entry carries it |
| `Slices.PlsNamesLast` | BresReader.js:1576 | the name under an index is that of the last entry carrying it |
| `Slices.PlsValuesLast` | BresReader.js:1577 | the value under an index is that of the last entry carrying it |
| `Slices.PlsSameIndices` | BresReader.js:1573-1578 | names and values are stored under the same indices |
| `Slices.BoardPlsIndices` | BresReader.js:1567-1579 | every index of the PLS part lies in 0..100 and is carried by a stored entry; outside the PLS revisions there is none |
| `Intervals.IntervsAt` | BresReader.js:1783-1787 | exactly `n` intervals |
| `Intervals.ReadIntervs` | BresReader.js:1783-1787 | the intervals as pairs of smallints, none for a count below 1; fails exactly when they do not fit |
| `Intervals.ReadOneQIntervs` | BresReader.js:1778-1791 | the count, its intervals and the overlap flag, 5 + 4n bytes; fails exactly when they do not fit |
| `Intervals.QI6Of` | BresReader.js:1793-1804 | a QI6 takes the bytes of its two halves |
| `Intervals.ReadQThree` | BresReader.js:1796-1801 | three interval sets, each where the one before ends |
| `Intervals.ReadQI6` | BresReader.js:1793-1804 | six interval sets in the order face 1, face 2, front 1, rear 1, front 2, rear 2 |
| `Intervals.CopyToQI6` | BresReader.js:1806-1817 | the same intervals in all six slots |
| `Intervals.QI6SizeAtLeast` | BresReader.js:1793-1804 | a QI6 takes at least 30 bytes |
| `Intervals.FieldsAt` | BresReader.js:1830-2051 | one value per feature of the table |
| `Intervals.ReadValue` | BresReader.js:1830-2051 | a stored feature: one interval set or a QI6, as its shape says |
| `Intervals.ReadField` | BresReader.js:1830-2051 | one feature read where the ones before end, or its placeholder; failure only for a stored one |
| `Intervals.ReadFields` | BresReader.js:1830-2051 | the features of the table in order, as the reference definition gives them |
| `Intervals.ReadExtReasons` | BresReader.js:1822-1828 | the extended reasons as an integer above 89, a word above 49, a byte above 38, 0 before; succeeds exactly when that fits |
| `Intervals.ReadQFI` | BresReader.js:1819-2053 | the whole block decoded from the window, ending where its last stored feature ends |
| `Intervals.FieldsAtPrefix` | BresReader.js:1830-2051 | later features do not change the values of earlier ones |
| `Intervals.FieldsAtEntry` | BresReader.js:1830-2051 | feature `i` is read where those before it end when stored and then takes bytes, else it is its placeholder and takes none |
| `Intervals.Features` | BresReader.js:1819-2053 | one value per feature of the table |
| `Intervals.XLimRead` | BresReader.js:1830 | XLim is always read first, after the extended reasons |
| `Intervals.FeatureValue` | BresReader.js:1830-2051 | each feature is read where the one before ends when stored, its placeholder otherwise |
| `Intervals.FallsBackToXLim` | BresReader.js:1850-1955 | a missing feature that falls back to XLim is XLim, or XLim in all six slots |
| `Intervals.EndSplitAliasesSplit` | BresReader.js:1874-1882 | outside revisions 133-499 and above 519 the end splits are the split intervals |
| `Intervals.OpenSidedZero` | BresReader.js:2014-2040 | a missing open-sided feature has no intervals |
| `Intervals.OpenSidedWaneGate` | BresReader.js:2014 | the open-sided wane features are stored exactly above 500 and in 117-499 |
| `Intervals.FeatureBytes` | BresReader.js:1830-2051 | a missing feature takes no bytes, a stored one its value's and at least 5 |
| `Solution.ReadRInfoHead` | BresReader.js:1682-1695 | positions and limits, the ratio as a double in the current layout (above 525, 137 to 499) or an integer, length, count, cut-out and, above revision 56, the component count |
| `Solution.NewRIntervsAt` | BresReader.js:1697-1704 | exactly `n` intervals |
| `Solution.ReadNewRInterv` | BresReader.js:1698-1703 | one current-layout interval with its own component index, name and code, 40 bytes |
| `Solution.ReadNewRIntervs` | BresReader.js:1697-1704 | the declared intervals 40 bytes apart, none for a count below 1 |
| `Solution.ReadOldComps` | BresReader.js:1708-1712 | the two component names and codes of the older layout, 72 bytes |
| `Solution.OldRIntervsAt` | BresReader.js:1713-1727 | exactly `n` intervals |
| `Solution.ReadOldRInterv` | BresReader.js:1714-1726 | one older-layout interval, 12 bytes, given the name and code its index selects |
| `Solution.ReadOldRIntervs` | BresReader.js:1713-1727 | the declared intervals 12 bytes apart |
| `Solution.PlainRIntervsAt` | BresReader.js:1733-1738 | exactly `n` intervals |
| `Solution.ReadPlainRIntervs` | BresReader.js:1731-1739 | the intervals of files up to revision 56: two integers each, without a component index |
| `Solution.ReadRInfo` | BresReader.js:1676-1742 | the remanufacturing block decoded from the window, its extent given by the count and the skip over the remaining (100 - count) slots |
| `Solution.RInfoSizes` | BresReader.js:1676-1742 | with 0 to 100 intervals the block takes 4040 bytes in the current layout, 1308 in the older and 32 + 8n up to revision 56 |
| `Solution.NewRInfoStoresComponents` | BresReader.js:1680-1696 | the current layout only occurs where the component count is stored |
| `Solution.OldIntervalComponent` | BresReader.js:1717-1726 | an older-layout interval takes the second component exactly when its index is 2 |
| `Solution.PlainIntervalsHaveNoComponent` | BresReader.js:1731-1738 | up to revision 56 there is one component and no interval has an index |
| `Solution.ReadShopHead` | BresReader.js:1747-1754 | positions, area, the three yields and the component count, 48 bytes |
| `Solution.ShopCompsAt` | BresReader.js:1756-1772 | exactly `n` components |
| `Solution.ReadShopCompPlace` | BresReader.js:1758-1765 | the eight position integers in order |
| `Solution.ReadShopComp` | BresReader.js:1757-1771 | one shop component, 72 bytes; fails exactly when its 62 read bytes do not fit |
| `Solution.ReadShopComps` | BresReader.js:1756-1772 | the declared components 72 bytes apart |
| `Solution.ReadShopInfo` | BresReader.js:1744-1776 | the shop block decoded from the window, then the skip over the remaining (20 - n) slots |
| `Solution.ShopInfoSizeFixed` | BresReader.js:1744-1776 | with 0 to 20 components the shop block takes 1488 bytes |
| `Solution.ReadSolHead` | BresReader.js:2058-2064 | solution type, the three values and the dimension unit above revision 30 (0 otherwise) |
| `Solution.ReadRemanFlags` | BresReader.js:2070-2076 | the remanufacture solution, quality and component, and the shop flag above revision 80 (false otherwise) |
| `Solution.ReadRemanBlock` | BresReader.js:2066-2083 | above revision 42 the flags and then shop information when the flag is set, remanufacturing information otherwise |
| `Solution.RemanInfoExclusive` | BresReader.js:2066-2083 | shop information exactly when the flag is stored and set, remanufacturing information exactly when not, neither up to revision 42 |
| `Solution.ReadSolIndices` | BresReader.js:2085-2089 | the five indices, 20 bytes |
| `Solution.ReadCutPositions` | BresReader.js:2091-2096 | the six cut and module integers, 24 bytes |
| `Solution.ReadExactCutValues` | BresReader.js:2099-2105 | the seven singles, 28 bytes |
| `Solution.ReadExactCuts` | BresReader.js:2098-2106 | the singles above revision 34, none otherwise |
| `Solution.ReadCutReasons` | BresReader.js:2108-2124 | above revision 38 the reasons (the grading reject reason above 46), the solution length and the layer index above 94 |
| `Solution.ReadOptFlags` | BresReader.js:2126-2141 | the option flags in the width of the revision and the second flags where stored, with the edger options added for edging solutions below 128 |
| `Solution.ReadMeasures` | BresReader.js:2143-2149 | displacement above 69 and raw width above 70, 0 otherwise |
| `Solution.ReadGradingBlock` | BresReader.js:2151-2172 | above revision 72 the 64-bit grading intervals, the quality-selection indices of the revision and the vacant words; nothing before |
| `Solution.ReadSolCuts` | BresReader.js:2085-2124 | indices, cut positions, exact cuts and reasons, each where the one before ends |
| `Solution.ReadSolSettings` | BresReader.js:2126-2172 | the flags, the measures and the grading block in order |
| `Solution.ReadSolBody` | BresReader.js:2058-2172 | everything before the interval block, ending where that block starts |
| `Solution.ReadOneOptSolution` | BresReader.js:2055-2177 | one solution decoded from the window, ending where its interval block ends |
| `Solution.OptFlagsWidths` | BresReader.js:2126-2131 | the option flags take 1, 2 or 4 bytes by revision |
| `Solution.AdjustedFlagsMembers` | BresReader.js:2135-2141 | below 128 a trim, edging or upside-down solution has both edger options and keeps every other stored option; any other keeps its flags |
| `Solution.CurrentFlagsAsStored` | BresReader.js:2132-2141 | from revision 128 the second flags are as stored |
| `Solution.GradingBlockFixed` | BresReader.js:2151-2172 | the grading block takes 40 bytes wherever it is stored, 0 up to revision 72 |
| `Solution.FourthIndexFrom88` | BresReader.js:2160-2163 | the fourth quality-selection index exists exactly above revision 87 |
| `Solution.SolBlockSizesCurrent` | BresReader.js:2085-2172 | above revision 102 the cuts take 90 bytes and the settings 60 |
| `Rules.ReadLimits` | BresReader.js:2204-2209 | the nominal and raw dimension and the four limits, six doubles, 48 bytes |
| `Rules.ReadDimLimits` | BresReader.js:2202-2209 | the name, the 6 alignment bytes and the six doubles |
| `Rules.SkipDimRulePad` | BresReader.js:2210-2232 | the vacant parts of the revision are passed over, 8 more bytes before revision 73 in files with an edging solution |
| `Rules.ReadDimRule` | BresReader.js:2199-2273 | a thickness or width rule decoded from the window, taking the rule size of the revision |
| `Rules.DimRulesAt` | BresReader.js:2518-2530 | exactly `n` rules |
| `Rules.ReadDimRules` | BresReader.js:2518-2530 | the declared rules one rule size apart, none for a count below 1; fails exactly when the last one's reads do not fit |
| `Rules.DimRuleSizes` | BresReader.js:2199-2235 | a rule takes 80 or 88 bytes before revision 73, 80 up to 100, 112 up to 124 and 144 in current files |
| `Rules.DimRulePadEdging` | BresReader.js:2210-2214 | an edging solution in the file matters only before revision 73, and then adds 8 bytes |
| `Rules.ReadGradeRec` | BresReader.js:2275-2297 | the name and short name, then the vacant bytes of the revision |
| `Rules.GradeRecsAt` | BresReader.js:2534-2538 | exactly `n` grade records |
| `Rules.ReadGradeRecs` | BresReader.js:2534-2538 | the declared grade records one record size apart |
| `Rules.GradeRecSizes` | BresReader.js:2281-2294 | a grade record takes 44, 48, 50, 52, 56 or 80 bytes per revision range, revisions 500 to 517 like 121 to 137 |
| `Rules.GradeRecSizeMonotone` | BresReader.js:2281-2294 | among the legacy revisions a later file never has smaller grade records |
| `Rules.GrdIndLenMonotone` | BresReader.js:2496-2508 | the number of grade indices never falls with the revision and lies in 24..150 |
| `Rules.ReadGrdInd` | BresReader.js:2496-2512 | the grade indices of the revision, read as integers |
| `Bd.ReadBdHead` | BresReader.js:1586-1593 | description, optimisation time and the three length values, 52 bytes |
| `Bd.ReadBdWane` | BresReader.js:1596-1604 | the two wane areas within the skipped width and thickness measurements, 164 bytes |
| `Bd.ReadBdVolume` | BresReader.js:1606-1613 | volume, the two class numbers, the board type word (not kept) and the split decision, 56 bytes |
| `Bd.ReadWidth` | BresReader.js:1616-1625 | one width as an integer up to revision 139 and from 500 to 527, a single otherwise; succeeds exactly when its 4 bytes fit |
| `Bd.ReadBdWidths` | BresReader.js:1616-1626 | the root, centre and top widths and the 24 skipped bytes |
| `Bd.ReadBdWarp` | BresReader.js:1629-1638 | cup dimension and the Suro thickness among the skipped warp, meter and regression values, 124 bytes |
| `Bd.ReadBdCounts` | BresReader.js:1640-1648 | optimal thickness, the board counts, the two optimisation times and the solution count, 28 bytes |
| `Bd.ReadBdTarget` | BresReader.js:1651-1671 | the average and target widths among the skipped corrections, 164 bytes |
| `Bd.ReadBD` | BresReader.js:1584-1674 | the block decoded from the window, a fixed number of bytes |
| `Bd.BdLayout` | BresReader.js:1616-1648 | the solution count sits 456 bytes in, the Suro thickness 336 in, and the widths are integers exactly in the revisions the source says |
| `Board.NumOfSlices` | BresReader.js:1154-1163 | the slice capacity is 1320 from revision 505, 792 from 500 and 396 before |
| `Board.ReadGeomPoint` | BresReader.js:1181-1189 | one geometry point, two integers before revision 44 and two singles after; succeeds exactly when its bytes fit |
| `Board.ReadGeomSlice` | BresReader.js:1178-1190 | one slice position and its ten points, a revision-dependent number of bytes |
| `Board.ReadBoardGeom` | BresReader.js:1173-1191 | the slice count and that many slices, geometry decoded from the window |
| `Board.BoardGeomShape` | BresReader.js:1173-1191 | one slice per counted slice, ten points in each, slice positions where they sit, and the point kind follows revision 44 |
| `Board.ReadSideDefects` | BresReader.js:1193-1200 | one side's defect count and its defects |
| `Board.ReadFourSides` | BresReader.js:1193-1200 | the up, down, front and rear defects one after the other |
| `Board.ReadSideExtInfos` | BresReader.js:1203-1206 | one side's extended informations, as many as that side's defects |
| `Board.ReadExtPair` | BresReader.js:1203-1206 | two sides' extended informations in order |
| `Board.ReadExtInfos` | BresReader.js:1202-1207 | the four sides' extended informations, counted by the four defect counts |
| `Board.ReadCombiRun` | BresReader.js:1211-1214 | one combination count and that many combination defects |
| `Board.ReadCombiDefects` | BresReader.js:1209-1216 | the combination knots and shakes from revision 82, none before |
| `Board.ReadBoardDefects` | BresReader.js:1193-1216 | the defect part of the record decoded from the window |
| `Board.BoardDefectsShape` | BresReader.js:1193-1216 | extended informations present exactly after revision 33, as many per side as defects, combination defects exactly after revision 81 and both counts 0 otherwise |
| `Board.ReadPinWorm` | BresReader.js:1225-1226 | a pin and a worm byte; succeeds exactly when both fit |
| `Board.ReadSlicePinWorm` | BresReader.js:1224-1235 | the four sides' pin and worm bytes of one slice, 8 bytes |
| `Board.ReadSawStep` | BresReader.js:1242-1243 | an up and a down saw step byte; succeeds exactly when both fit |
| `Board.ReadPinWorms` | BresReader.js:1218-1237 | the pinworm bytes of every geometry slice, 8 per slice |
| `Board.ReadSawSteps` | BresReader.js:1239-1246 | the saw steps of every geometry slice; fails exactly when the 2 bytes per slice do not fit |
| `Board.ReadLightQuad` | BresReader.js:1257-1261 | the four three-byte light levels of one slice, 12 bytes |
| `Board.ReadInterleavedLight` | BresReader.js:1256-1278 | the slice capacity's light quads one after the other |
| `Board.ReadLightTriples` | BresReader.js:1281-1286 | three runs of three-byte levels, 9 bytes per slice |
| `Board.ReadSeparateLight` | BresReader.js:1280-1293 | the six runs of levels from revision 522, 18 bytes per slice |
| `Board.ReadLightLevels` | BresReader.js:1248-1304 | the light levels as the revision lays them out, or the skipped 12 bytes per geometry slice |
| `Board.LightLevelsLayout` | BresReader.js:1254-1304 | interleaved with the capacity's count from revision 92 to 521, separate with 1320 per run and 23760 bytes from 522, skipped as 12 bytes per slice from 32 to 91 |
| `Board.ReadPithPoint` | BresReader.js:1321-1328 | one pith point, with the skipped offset and a single after revision 77; succeeds exactly when its bytes fit |
| `Board.ReadPithArray` | BresReader.js:1318-1330 | one pith point per slice of the capacity |
| `Board.SkipXuTextures` | BresReader.js:1311-1316 | four XU texture blocks skipped from revision 74 |
| `Board.ReadSliceBytes` | BresReader.js:1218-1246 | the pinworm and saw-step bytes together |
| `Board.ReadPithPart` | BresReader.js:1306-1341 | the texture skips, the pith array and the sapwood skip of 21124, 12676 or 6340 bytes |
| `Board.ReadBoardScans` | BresReader.js:1218-1341 | everything from the pinworms to the sapwood, decoded from the window |
| `Board.ReadHeads` | BresReader.js:1343-1349 | one thickness block, or two from revision 132 |
| `Board.ReadBoardThickness` | BresReader.js:1343-1349 | the two thickness head counts and their blocks |
| `Board.Padded` | BresReader.js:1371-1376 | a side read with two points keeps them and gets 0 as its third |
| `Board.ReadPointPair` | BresReader.js:1351-1370 | two sides of two or three points each, by revision 37 |
| `Board.RepairSecondSide` | BresReader.js:1377-1380 | the begin repair keeps both sides three points long |
| `Board.RepairEndPointsAsWritten` | BresReader.js:1381-1384 | the end repair as written keeps both sides three points long |
| `Board.RepairedPoints` | BresReader.js:1377-1384 | both repairs keep the points well shaped |
| `Board.ReadBoardPoints` | BresReader.js:1351-1384 | the begin and end points as read, padded and repaired |
| `Board.RepairSecondSideProperties` | BresReader.js:1377-1380 | the begin repair leaves side 1 alone, gives side 2 its first point, changes nothing else and is idempotent |
| `Board.RepairEndPointsAsWrittenProperties` | BresReader.js:1381-1384 | as written, the end repair shifts side 2 exactly when side 1 lacks its first point |
| `Board.TwoPointSidesPadded` | BresReader.js:1360-1376 | before revision 37 every third point is 0, as read and after the repairs |
| `Board.RepairEndPointsAsWrittenMisses` | BresReader.js:1381-1384 | inputs where the end repair as written keeps a second side without its first point, and shifts one that had it |
| `Board.ScaledMoisture` | BresReader.js:1408-1409 | the scaling touches only the moisture content |
| `Board.ReadBoardHeader` | BresReader.js:1386-1407 | the reader moves on by the length the revision and header size give; revision 105 fails with an undeclared name, others give the header read from that window |
| `Board.ShortHeaderBack` | BresReader.js:1399-1400 | a header window shorter than 318 bytes leaves the header's back at its defaults |
| `Board.EarlyBoardHeaderBack` | BresReader.js:1390-1391 | before revision 41 the header's back keeps its defaults |
| `Board.ScaledMoistureValue` | BresReader.js:1408-1409 | tenfold below 101 before revision 72, unchanged otherwise |
| `Board.ReadMoistureAverages` | BresReader.js:1422-1425 | the MSR average from revision 63 and the MC average from 64, 0 otherwise |
| `Board.ReadBoardMoisture` | BresReader.js:1411-1431 | the MSR and MC values and the averages decoded from the window |
| `Board.BoardMoistureShape` | BresReader.js:1411-1431 | one MSR and one MC value per slice after revision 60, read where they sit; 99999 per slice and no MC values before |
| `Board.ReadEndSpy` | BresReader.js:1440-1441 | one EndSpy result decoded from the window |
| `Board.EndSpyRunAt` | BresReader.js:1438-1467 | at most two results, as many as asked for |
| `Board.ReadEndSpyRun` | BresReader.js:1438-1467 | that many EndSpy results one after the other |
| `Board.ReadEsImageInfo` | BresReader.js:1446-1458 | the board id and pith position, then the skipped 135 by 240 image |
| `Board.ReadEsImage` | BresReader.js:1443-1460 | the image part from revisions 129 and 515, present when its size is positive |
| `Board.EndSpyCount` | BresReader.js:1437-1467 | at most two results |
| `Board.ReadSizedEndSpy` | BresReader.js:1437-1461 | the sized part: a record size, two results when positive, then the image |
| `Board.ReadBoardEndSpy` | BresReader.js:1433-1471 | the EndSpy part as the revision lays it out, including the 48 skipped bytes of revision 90 |
| `Board.FixEndSpyResults` | BresReader.js:1473-1504 | the version fixes applied to every result, failing at the heart-shake loop |
| `Board.FixedEndSpyKeeps` | BresReader.js:1475-1493 | the fixes touch only the three stain percentages, each becoming not in use or staying as read |
| `Board.FixedEndSpyPercents` | BresReader.js:1475-1493 | each percentage is not in use exactly for the revisions without it, an average gap of 0, or when it was already |
| `Board.FixedEndSpyIdempotent` | BresReader.js:1475-1493 | applying the fixes twice equals applying them once |
| `Board.FixedEndSpyResultsCases` | BresReader.js:1495-1504 | the fixes fail exactly when some result has splits marked; otherwise each result is fixed in place; revisions without the marking never fail |
| `Board.MoistSpyAtShaped` | BresReader.js:943-1041 | a decoded MoistSpy record has a sensor record and a moisture per counted sensor |
| `Board.ReadBoardMoistSpy` | BresReader.js:1506-1516 | the MoistSpy part as the revision lays it out, shaped when present |
| `BoardRecord.ReadThicknessPart` | BresReader.js:1343-1349 | the thickness part decoded from the window, ending where the window says |
| `BoardRecord.ReadGeomDefects` | BresReader.js:1173-1216 | the geometry, then the defects from where the geometry ends |
| `BoardRecord.ReadBoardFront` | BresReader.js:1165-1384 | the descriptor, geometry, defects, scans, thickness and points decoded from the window |
| `BoardRecord.ReadMoistSpyPart` | BresReader.js:1506-1550 | the MoistSpy part as read, with the version fixes applied |
| `BoardRecord.ReadBackHead` | BresReader.js:1386-1504 | the header, moisture and EndSpy parts decoded from the window, the reader at the MoistSpy part |
| `BoardRecord.ReadBackTail` | BresReader.js:1506-1579 | the MoistSpy, slice and PLS parts decoded from the window; an array-length failure only when a slice count is too large for an array |
| `BoardRecord.ReadBoardBack` | BresReader.js:1386-1579 | everything after the points decoded from the window |
| `BoardRecord.ReadOptBoardRec` | BresReader.js:1153-1582 | the whole optimised board record decoded from the window, ending where the window says |
| `Corrections.JsRem` | BresReader.js:2423 | JavaScript's remainder: smaller than the divisor in size, Euclidean for a value that is not negative, never positive for a negative one |
| `Corrections.RepackKeepsModeAndGrade` | BresReader.js:2422-2426 | a repacked ManualGrade keeps its mode and its grade, the mode now above 100000 instead of 1000 |
| `Corrections.RepackBoard` | BresReader.js:2422-2426 | the repack keeps a missing board missing, changes only the header, and nothing from revision 56 on |
| `Corrections.RepackOnlyManualGrade` | BresReader.js:2422-2426 | below revision 56 only the ManualGrade of the header changes, to its repacked value |
| `Corrections.GeomXs` | BresReader.js:2179-2189 | the slice positions of the geometry, slice by slice |
| `Corrections.DefectSlicesSet` | BresReader.js:2191-2197 | one side keeps as many informations as it had |
| `Corrections.FixSide` | BresReader.js:2191-2197 | the loop over one side sets every information's first and last slices |
| `Corrections.FixDefectSlices` | BresReader.js:2435-2440 | the loop over the four sides as the source runs it |
| `Corrections.SideSlicesOrdered` | BresReader.js:2179-2197 | every information of a corrected side has its last slice at or after its first, and its first at least 1 |
| `Corrections.FixedSlicesOrdered` | BresReader.js:2435-2440 | after the correction every side's informations are ordered; the defects, geometry and everything else are unchanged |
| `Corrections.SlicesFixFailsWhen` | BresReader.js:2435-2440 | the correction fails, with an undefined access, exactly when there is no board, no informations, or a side with fewer defects than informations |
| `Corrections.SolutionCount` | BresReader.js:2442-2446 | at least the stored count; at least one in the revisions with the dimension reject, and different from the count only there, for a count of 0 or less |
| `Corrections.IncludeAllBits` | bresDefs.js:16-18 | after a chain of includes, a bit is set exactly when it was set before or its member was included |
| `Corrections.IncludeAllBelow` | bresDefs.js:16-18 | including members below n keeps a set below 2 to the n |
| `Corrections.LegacyIntervalsBelow64` | BresReader.js:2456-2492 | every interval the legacy lists name is below 64 |
| `Corrections.CorrectedIntervalsMembers` | BresReader.js:2455-2492 | the corrected intervals hold exactly the listed members and fit in 64 bits |
| `Corrections.IncludeKeeps` | bresDefs.js:16-18 | including a member never drops one already in the set |
| `Corrections.IncludeWrapped` | bresDefs.js:16-18 | including a member e sets the bit e modulo 32, when that is not 31 |
| `Corrections.AsWrittenHits` | BresReader.js:2456-2492 | a chain that includes a member whose bit is f ends with f in the set |
| `Corrections.AsWrittenKeeps` | BresReader.js:2456-2492 | a chain never drops a member |
| `Corrections.AsWrittenSetsAltQ` | BresReader.js:2471 | including griRotFace (36) sets griXLim_AltQ (4), which neither list names, in inches and in millimetres |
| `Corrections.AltQNotListed` | BresReader.js:2456-2492 | griRotFace is 36, griXLim_AltQ is 4, and only the first is listed |
| `Corrections.AsWrittenSetsBit4` | BresReader.js:2456-2492 | the legacy chain always ends with bit 4 set |
| `Corrections.WithLegacyGrading` | BresReader.js:2455-2492 | from revision 73 the solution is unchanged; the grading changes, nothing else |
| `Corrections.LegacyIntervalsNoBit31` | BresReader.js:2456-2492 | no listed interval falls on bit 31 |
| `Corrections.LegacyGradingMembers` | BresReader.js:2455-2492 | below revision 73 every listed interval is a member at its number modulo 32, and so is griXLim_AltQ |
| `Corrections.WidthRawW` | BresReader.js:2542 | a width rule's raw width, found exactly for an index from 1 to the number of rules, an undefined access otherwise |
| `Corrections.RawWFixed` | BresReader.js:2540-2544 | the solutions keep their number |
| `Corrections.FixRawW` | BresReader.js:2540-2544 | the loop as the source runs it |
| `Corrections.RawWFixedFailsAfter` | BresReader.js:2540-2544 | once a solution names no width rule every longer loop fails too |
| `Corrections.RawWFixedFailure` | BresReader.js:2540-2544 | the loop can fail only with an undefined access |
| `Corrections.RawWFixedMeaning` | BresReader.js:2540-2544 | the fix succeeds exactly when each solution names a width rule; those take that rule's raw width, the rest are unchanged |
| `Corrections.EdgerGateShape` | BresReader.js:2549 | the edger block is stored exactly in the dual range at 125 and 511, and up to revision 100 |
| `Bres.ReadBres32Head` | BresReader.js:2409-2418 | the status, the record number, the result header and the skipped header copy decoded from the window |
| `Bres.ReadBoardStage` | BresReader.js:2420-2428 | the board record with its ManualGrade repacked, then the skipped batch information |
| `Bres.ReadBdBlock` | BresReader.js:2430-2433 | the BD block read from its own window, the reader moving on by the block's size |
| `Bres.SliceStage` | BresReader.js:2435-2440 | before revision 82 the defect slices are corrected, from 82 on the board is unchanged |
| `Bres.ReadBres32Front` | BresReader.js:2409-2440 | everything up to the solutions decoded from the window |
| `Bres.SolutionsAt` | BresReader.js:2448-2449 | as many solutions as asked for |
| `Bres.ReadStoredSolution` | BresReader.js:2449-2492 | one solution as read, with the legacy grading intervals of old files |
| `Bres.ReadNextSolution` | BresReader.js:2448-2494 | one more step of the loop extends the run of solutions by the one read |
| `Bres.AnyEdgingAppend` | BresReader.js:2450-2453 | one more solution sets the edging flag exactly when it trims, edges or is upside down |
| `Bres.NoteEdging` | BresReader.js:2450-2453 | the flag stays equal to whether some solution so far trims, edges or is upside down |
| `Bres.ReadSolutions` | BresReader.js:2447-2494 | the solutions decoded from the window, and the edging flag true exactly when one of them trims, edges or is upside down |
| `Bres.ReadCountedDimRules` | BresReader.js:2518-2530 | a count and that many thickness or width rules |
| `Bres.ReadCountedGradeRecs` | BresReader.js:2534-2538 | a count and that many grade records |
| `Bres.ReadRuleTables` | BresReader.js:2516-2538 | the thickness, width and grade tables decoded from the window |
| `Bres.ReadBres32Tables` | BresReader.js:2496-2538 | the grade indices, the memo and the three tables decoded from the window |
| `Bres.ReadEdgerBlock` | BresReader.js:2546-2562 | the edger solution decoded from the window; a size that cannot be read counts as 0; a failure only when a positive size announces a block that does not fit |
| `Bres.ReadBres32Back` | BresReader.js:2442-2562 | solutions, tables, the raw width fix and the edger block decoded from the window |
| `Bres.ReadBRES32Data` | BresReader.js:2406-2565 | the record decoded from the window with its own revision |
| `Bres.MainHeaderOf` | BresReader.js:2584 | the board's header is there exactly when the board is |
| `Bres.ReadBres32File` | BresReader.js:2579-2586 | the record with its revision, the batch information passed in and the board's header attached |
| `Bres.ReadBresBody` | BresReader.js:2574-2591 | no result up to revision 20, the board file from 21 to 33, and above that the record with the batch information read and the board's header |
| `Bres.ReadBres` | BresReader.js:2570-2593 | a buffer whose initial information cannot be read fails; otherwise the revision decides: nothing up to 20, the board up to 33, the record above, with batch information exactly above 110 |

## Left out

- `DelphiByteStreamReader` is not part of this model. `Reader.ByteReader` stands in for it. A read of w bytes succeeds exactly when `pos >= 0` and `pos + w` is within both the reader's length and the buffer. A failed read leaves the position unchanged and fails with `ReadPastEnd`. `IncOffset` never fails and may take the position below 0 or past the end; the next read then fails.
- Bytes are a `uint8` newtype (0 to 255), not `bv8`, so that the solver works on integers.
- Singles, doubles and dates are kept as their IEEE bit patterns (`F32`, `F64`). They are not converted to numbers. Only the tests the decoder makes on them (`=== 0`, `> 0`) are decided from the pattern.
- Strings (`readShortString`, `readAnsiCharArray`, `readCharArray`) are byte slices of their slot, not decoded text. A short string of n characters takes n + 1 bytes, and an Ansi array of n characters takes n bytes.
- `readCharArray` of n characters is taken to take 2n bytes, two-byte characters, because the reader has a separate Ansi variant. The reader is not shown, so this is an assumption.
- `Revision.AnsiText`: the text of the seven-character tag slot stops at the first zero byte. This is an assumption about the reader, which is not shown. The `BRES000` remap can only fire if `'B'` plus the slot's text can equal a seven-character string, and it depends on this assumption.
- `Revision.RevisionOfOldTag`: a first byte below 26 gives the tag `"Old"` and the byte in decimal, and `parseInt` of characters 4 to 6 of that tag gives the revision. So the revision is NaN (`None`) for a byte below 10 and the last digit for 10 to 25. A description of the format says such a byte is itself the revision. The model follows the code.
- `Bres.ReadBres`: the length of the memo read by the bare `readShortString()` at BresReader.js:2514 is not determined by the code. It is a parameter `memoLen` of `ReadBres`, `ReadBresBody`, `ReadBres32File`, `ReadBRES32Data` and `ReadBres32Tables`.
- `ResultHeader.ReadGradeCode`: the grade code `'' + GradeCode` of the revisions that store it as an integer is kept as the number (`CodeNumber`), not converted to its decimal text.
- `Board.ReadBoardHeader`: revision 105 reads `CPID_Front`, a name that is not declared (BresReader.js:1405). In strict mode this throws a ReferenceError. The model fails with `UndeclaredName`.
- `Board.FixEndSpyResults`: the heart-shake loop at BresReader.js:1500 steps `i` instead of `sp` and indexes `Splits` on the result. When it runs, the source throws a TypeError, and the model fails with `UndefinedAccess`. Its intended effect, marking splits as heart shakes, is not modelled.
- `new Array(n)` with a length JavaScript refuses throws a RangeError. The model fails with `InvalidArrayLength`. This failure kind is carried by `Slices.ReadSliceDataPair`, `Slices.ReadSliceDataSides`, `Slices.ReadBoardSlices`, `BoardRecord.ReadBackTail`, `BoardRecord.ReadBoardBack`, `BoardRecord.ReadOptBoardRec`, `Bres.ReadBoardStage`, `Bres.ReadBres32Front`, `Bres.ReadBRES32Data`, `Bres.ReadBresBody` and `Bres.ReadBres`.
- `Bres.ReadBRES32Data`, `Bres.ReadBres32Back`, `Bres.ReadBres32Front`, `Bres.ReadBoardStage`, `BoardRecord.ReadOptBoardRec`, `BoardRecord.ReadBoardBack`, `BoardRecord.ReadBoardFront`: on failure these state only the error kind, or that the failure is the one their specification function gives. They do not state the position reached.
- `Bres.ReadBres`, `Bres.ReadBresBody` and `Bres.ReadBres32File` state the dispatch on the revision, the batch information and the board header attached to the record. The record itself is stated by `Bres.ReadBRES32Data`. For a successful BRES32 file they do not restate its value as a function of the buffer.
- `Bres.ReadBres`: a file of revision 20 or below, or of NaN revision, decodes to `NoResult`, which is the source's empty object `{}`. An unknown first byte fails with `UnknownMarker`, where the source would go on with an undefined tag.
- Pixel payloads are read as their sizes only and are not kept: the EndSpy image (`ESImage1d8`, BresReader.js:1450-1458), the slice camera images (BresReader.js:1129-1132) and the texture grids (BresReader.js:1054-1063).
- `EndSpy.EndSpySizes`: the size comment at BresReader.js:931-936 gives 2680 bytes for revisions 116 and 117 and 502, but the reads add up to 2676. The model follows the reads.
- `Solution.ReadPlainRIntervs`: `res.iRemanComp` at BresReader.js:1737 is read from the object being built, which has no such field, so the component index is undefined. The model keeps no component index there, as written.
- There is no I/O, clock or concurrency in the decoder. The buffer is a parameter of `Bres.ReadBres`.

## Findings

| source | as written | input that shows it | evidently intended | confidence | as-written member | corrected member |
|---|---|---|---|---|---|---|
| BresReader.js:1381-1384 | the end-point repair tests side 1 (`BoardEndPoints[1][1] === 0 && BoardEndPoints[1][2] > 0`) and then shifts side 2 | end points side 1 = [5, 7, 0], side 2 = [0, 3, 0]: side 2 keeps its missing first point; side 1 = [0, 3, 0], side 2 = [4, 6, 0]: a complete side 2 becomes [6, 3, 0] | test side 2, as the begin-point repair at 1377-1380 does | not executed | `Board.RepairEndPointsAsWrittenMisses` | `Board.RepairSecondSideProperties` |
| BresReader.js:2455-2492 | the legacy grading intervals are built with the 32-bit `includeInSet`, whose `1 << e` takes e modulo 32, into a field that from revision 73 is a 64-bit set | revision 72, inches: including griRotFace (36) sets bit 4, griXLim_AltQ, which neither list names, and no member at 32 or above is set | each listed interval e sets bit e of the 64-bit set | not executed | `Corrections.AsWrittenSetsAltQ` | `Corrections.CorrectedIntervalsMembers` |

The decoder follows both as written: `Board.ReadBoardPoints` repairs the end
points by `Board.RepairEndPointsAsWritten` (`Board.RepairEndPointsAsWrittenProperties`),
and `Corrections.WithLegacyGrading` builds the 32-bit set (`Corrections.LegacyGradingMembers`).
The corrected definitions, `Board.RepairSecondSide` applied to the end points
and `Corrections.CorrectedGradingIntvs`, are proved correct beside them.
