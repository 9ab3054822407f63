/** The interpreter's word-check methods: decoders that recognise one kind of
    raw word and hand back its fields, parameterised, as in the interpreter, by
    the FE flavour, the trigger format and the TDC delay limit. A decoder that
    returns false and leaves its out-parameters alone is modelled as `None`. */
module WordCheck {
  import opened Wrappers
  import opened Defines

  // ---------------------------------------------------------------------------
  // Data header

  datatype DataHeaderTime = DataHeaderTime(lvl1id: Word, bcid: Word)

  /** A data header's LVL1ID and BCID, read with the FE-I4B layout when
      `feI4B` is set and the FE-I4A layout otherwise. */
  function GetTimeFromDataHeader(x: Word, feI4B: bool): (r: Option<DataHeaderTime>)
    ensures r.Some? <==> IsDataHeader(x)
    ensures r.Some? ==> IsTimeOf(r.value, x, feI4B)
  {
    if !IsDataHeader(x) then None
    else if feI4B then Some(FeI4BTime(x))
    else Some(FeI4ATime(x))
  }

  /** `t` is the time of data header `x` in a flavour's layout: LVL1ID and
      BCID lie within that flavour's field widths and together are exactly the
      15 bits below the flag (7 + 8 bits for FE-I4A, 5 + 10 bits for FE-I4B). */
  predicate IsTimeOf(t: DataHeaderTime, x: Word, feI4B: bool) {
    if feI4B then
      && t.lvl1id < 0x20 && t.bcid < BCID_COUNTER_SIZE_FEI4B
      && (t.lvl1id << 10) | t.bcid == x & 0x7FFF
    else
      && t.lvl1id < 0x80 && t.bcid < BCID_COUNTER_SIZE_FEI4A
      && (t.lvl1id << 8) | t.bcid == x & 0x7FFF
  }

  /** The FE-I4A reading of a data header. */
  function FeI4ATime(x: Word): (t: DataHeaderTime)
    ensures IsTimeOf(t, x, false)
  {
    DataHeaderTime(DataHeaderLvl1id(x), DataHeaderBcid(x))
  }

  /** The FE-I4B reading of a data header. */
  function FeI4BTime(x: Word): (t: DataHeaderTime)
    ensures IsTimeOf(t, x, true)
  {
    DataHeaderTime(DataHeaderLvl1idFeI4B(x), DataHeaderBcidFeI4B(x))
  }

  // ---------------------------------------------------------------------------
  // Data record

  /** The ToT code of a hit slot that holds no hit. */
  const NO_HIT_TOT: Word := 0xF

  /** One pixel hit as a data record carries it. */
  datatype PixelHit = PixelHit(column: Word, row: Word, tot: Word)

  /** The hits of a data record: hit 2, when present, is the pixel in the
      next row of the same column. */
  datatype DataRecordHits = DataRecordHits(first: PixelHit, second: Option<PixelHit>)

  /** A reasonable hit: it lies on the pixel matrix and its ToT code is a hit. */
  predicate IsReasonableHit(h: PixelHit) {
    && RAW_DATA_MIN_COLUMN <= h.column <= RAW_DATA_MAX_COLUMN
    && RAW_DATA_MIN_ROW <= h.row <= RAW_DATA_MAX_ROW
    && h.tot < NO_HIT_TOT
  }

  /** The first hit slot of a data record word. */
  function FirstHit(x: Word): PixelHit {
    PixelHit(DataRecordColumn1(x), DataRecordRow1(x), DataRecordTot1(x))
  }

  /** The second hit slot of a data record word. */
  function SecondHit(x: Word): PixelHit {
    PixelHit(DataRecordColumn2(x), DataRecordRow2(x), DataRecordTot2(x))
  }

  /** The interpreter's header-only data record test: no column, row or ToT
      limits are checked. */
  predicate IsDataRecordWord(x: Word)
    ensures IsDataRecordWord(x) <==> x >> 28 == 0
  {
    HasDataRecordHeader(x)
  }

  /** The hits of a data record with reasonable hit information: the word has
      the data record header, hit 1 is a reasonable hit, and hit 2 is either
      absent (its ToT slot holds the no-hit code) or reasonable too. */
  function GetHitsFromDataRecord(x: Word): (r: Option<DataRecordHits>)
    ensures r.Some? <==>
      && HasDataRecordHeader(x) && IsReasonableHit(FirstHit(x))
      && (DataRecordTot2(x) != NO_HIT_TOT ==> IsReasonableHit(SecondHit(x)))
    ensures r.Some? ==> r.value.first == FirstHit(x) && IsReasonableHit(r.value.first)
    ensures r.Some? ==> (r.value.second.Some? <==> DataRecordTot2(x) != NO_HIT_TOT)
    ensures r.Some? && r.value.second.Some? ==>
      && IsReasonableHit(r.value.second.value)
      && r.value.second.value.column == r.value.first.column
      && r.value.second.value.row == r.value.first.row + 1
      && r.value.second.value.tot == DataRecordTot2(x)
  {
    MacroAcceptanceIsReasonable(x);
    SecondSlotFollowsFirst(x);
    if MacroAccepts(x) then
      Some(DataRecordHits(FirstHit(x), if DataRecordTot2(x) == NO_HIT_TOT then None else Some(SecondHit(x))))
    else None
  }

  /** The second slot is the pixel in the next row of the first slot's column. */
  lemma SecondSlotFollowsFirst(x: Word)
    ensures SecondHit(x) == PixelHit(FirstHit(x).column, FirstHit(x).row + 1, DataRecordTot2(x))
  {
  }

  /** The decoder's tests written with the macros: the data record macro, a
      first ToT that is not the no-hit code, and a second hit, if any, that
      does not run past the last row. */
  predicate MacroAccepts(x: Word) {
    && IsDataRecord(x) && DataRecordTot1(x) != NO_HIT_TOT
    && (DataRecordTot2(x) == NO_HIT_TOT || DataRecordRow1(x) < RAW_DATA_MAX_ROW)
  }

  lemma MacroAcceptanceIsReasonable(x: Word)
    ensures MacroAccepts(x) <==>
      && HasDataRecordHeader(x) && IsReasonableHit(FirstHit(x))
      && (DataRecordTot2(x) != NO_HIT_TOT ==> IsReasonableHit(SecondHit(x)))
  {
    var first := FirstHit(x);
    DataRecordMacroBoundsFirstHit(x);
    SecondSlotFollowsFirst(x);
    AcceptanceOnFields(first.column, first.row, first.tot, DataRecordTot2(x));
  }

  /** The acceptance tests on the field values of the two hit slots. */
  lemma AcceptanceOnFields(c: Word, r: Word, t1: Word, t2: Word)
    requires r < 0x200 && t1 <= 0xF && t2 <= 0xF
    ensures (&& RAW_DATA_MIN_COLUMN <= c <= RAW_DATA_MAX_COLUMN && RAW_DATA_MIN_ROW <= r <= RAW_DATA_MAX_ROW
             && t1 != NO_HIT_TOT && (t2 == NO_HIT_TOT || r < RAW_DATA_MAX_ROW))
        <==> (&& IsReasonableHit(PixelHit(c, r, t1))
              && (t2 != NO_HIT_TOT ==> IsReasonableHit(PixelHit(c, r + 1, t2))))
  {
  }

  /** The data record macro is exactly the header test plus the matrix limits
      on the first hit's column and row. */
  lemma DataRecordMacroBoundsFirstHit(x: Word)
    ensures IsDataRecord(x) <==>
      && HasDataRecordHeader(x)
      && RAW_DATA_MIN_COLUMN <= DataRecordColumn1(x) <= RAW_DATA_MAX_COLUMN
      && RAW_DATA_MIN_ROW <= DataRecordRow1(x) <= RAW_DATA_MAX_ROW
  {
  }

  /** The ToT nibble a hit slot is written with: the hit's ToT, or the
      no-hit code for an empty slot. */
  function TotCode(h: Option<PixelHit>): Word {
    if h.Some? then h.value.tot else NO_HIT_TOT
  }

  /** Accepted hits lose nothing: hit 1 and the ToT code of the second slot
      give back the low 24 bits of the word. */
  lemma DataRecordHitsLossless(x: Word)
    requires GetHitsFromDataRecord(x).Some?
    ensures var h := GetHitsFromDataRecord(x).value;
      x & 0xFF_FFFF == (h.first.column << 17) | (h.first.row << 8) | (h.first.tot << 4) | TotCode(h.second)
  {
    DataRecordFieldsPartition(x);
  }

  /** Every word whose hits are accepted passes the header-only test, but not
      conversely: the all-zero word has the header and column 0. */
  lemma DataRecordTestsNested(x: Word)
    ensures GetHitsFromDataRecord(x).Some? ==> IsDataRecordWord(x)
    ensures IsDataRecordWord(0) && GetHitsFromDataRecord(0).None?
  {
  }

  /** The data record macro bounds hit 1 only: it accepts a word in the last
      row whose hit 2 is in row 337, beyond the matrix. The decoder refuses
      that word, and accepts the same position with the no-hit code in the
      second slot as a single hit. */
  lemma SecondHitCanLeaveMatrix()
    ensures IsDataRecord(0x0003_5000) && DataRecordRow2(0x0003_5000) == RAW_DATA_MAX_ROW + 1
    ensures GetHitsFromDataRecord(0x0003_5000).None?
    ensures GetHitsFromDataRecord(0x0003_500F) == Some(DataRecordHits(PixelHit(1, 336, 0), None))
  {
  }

  /** A first slot holding the no-hit code is refused even though the data
      record macro accepts the word. */
  lemma FirstSlotMustHoldHit()
    ensures IsDataRecord(0x0002_01F0) && GetHitsFromDataRecord(0x0002_01F0).None?
  {
  }

  // ---------------------------------------------------------------------------
  // Service, address and value records

  datatype ServiceRecordInfo = ServiceRecordInfo(code: Word, counter: Word)

  /** A service record's 6-bit code and 10-bit counter, which together are its
      low 16 bits. */
  function GetInfoFromServiceRecord(x: Word): (r: Option<ServiceRecordInfo>)
    ensures r.Some? <==> IsServiceRecord(x)
    ensures r.Some? ==>
      && r.value.code < 0x40 && r.value.counter < 0x400
      && (r.value.code << 10) | r.value.counter == x & 0xFFFF
  {
    if IsServiceRecord(x) then
      ServiceRecordFieldsPartition(x);
      Some(ServiceRecordInfo(ServiceRecordCode(x), ServiceRecordCounter(x)))
    else None
  }

  datatype AddressRecordInfo = AddressRecordInfo(address: Word, isShiftRegister: bool)

  /** An address record's 15-bit address and whether it addresses the shift
      register (type bit set) rather than the global register. */
  function GetAddressRecord(x: Word): (r: Option<AddressRecordInfo>)
    ensures r.Some? <==> IsAddressRecord(x)
    ensures r.Some? ==> IsAddressOf(r.value, x)
  {
    if IsAddressRecord(x) then Some(AddressInfo(x)) else None
  }

  /** `a` is what address record `x` carries: the type flag is bit 15, the
      address the 15 bits below it, and the two give back the low half. */
  predicate IsAddressOf(a: AddressRecordInfo, x: Word) {
    && a.address < 0x8000
    && (a.isShiftRegister <==> x & 0x8000 != 0)
    && (if a.isShiftRegister then a.address | 0x8000 else a.address) == x & 0xFFFF
  }

  function AddressInfo(x: Word): (a: AddressRecordInfo)
    ensures IsAddressOf(a, x)
  {
    if AddressRecordTypeSet(x) then
      ShiftRegisterAddressCovers(x);
      AddressRecordInfo(AddressRecordAddress(x), true)
    else
      GlobalRegisterAddressCovers(x);
      AddressRecordInfo(AddressRecordAddress(x), false)
  }

  lemma ShiftRegisterAddressCovers(x: Word)
    requires AddressRecordTypeSet(x)
    ensures AddressRecordAddress(x) | 0x8000 == x & 0xFFFF
  {
  }

  lemma GlobalRegisterAddressCovers(x: Word)
    requires !AddressRecordTypeSet(x)
    ensures AddressRecordAddress(x) == x & 0xFFFF
  {
  }

  /** A value record's 16-bit value, its whole low half. */
  function GetValueRecord(x: Word): (r: Option<Word>)
    ensures r.Some? <==> IsValueRecord(x)
    ensures r.Some? ==> r.value == x & 0xFFFF
  {
    if IsValueRecord(x) then Some(ValueRecordValue(x)) else None
  }

  // ---------------------------------------------------------------------------
  // TDC words

  /** A TDC word the event takes into account: its trigger distance is below
      the configured maximum delay; every other TDC word is ignored. */
  predicate IsFittingTdcWord(x: Word, maxTdcDelay: Word)
    ensures IsFittingTdcWord(x, maxTdcDelay) <==> x >> 28 == 4 && (x >> 20) & 0xFF < maxTdcDelay
  {
    TdcDistanceIsByte20(x);
    IsTdcWord(x) && TdcTriggerDistance(x) < maxTdcDelay
  }

  lemma TdcDistanceIsByte20(x: Word)
    ensures TdcTriggerDistance(x) == (x >> 20) & 0xFF
  {
  }

  /** A maximum delay of at least 256 admits every TDC word, and a maximum
      delay of zero admits none. */
  lemma TdcDelayLimits(x: Word, maxTdcDelay: Word)
    ensures maxTdcDelay >= N_TDC_DIST_VALUES ==> (IsFittingTdcWord(x, maxTdcDelay) <==> IsTdcWord(x))
    ensures !IsFittingTdcWord(x, 0)
  {
  }

  /** Raising the maximum delay never drops a fitting TDC word. */
  lemma TdcDelayMonotone(x: Word, d1: Word, d2: Word)
    requires d1 <= d2
    ensures IsFittingTdcWord(x, d1) ==> IsFittingTdcWord(x, d2)
  {
  }

  // ---------------------------------------------------------------------------
  // Trigger words

  /** The numeric code of a trigger format, as the named constants give it. */
  function TriggerFormatCode(f: TriggerFormat): (code: nat)
    ensures code < 3
  {
    match f
    case TriggerCounter => TRIGGER_FORMAT_TRIGGER_COUNTER
    case TimeStamp => TRIGGER_FORMAT_TIMESTAMP
    case Combined => TRIGGER_FORMAT_COMBINED
  }

  /** The trigger format a configured code selects, keyed by the named
      constants; codes beyond them select none. */
  function TriggerFormatFromCode(code: nat): (r: Option<TriggerFormat>)
    ensures r.Some? <==> code < 3
    ensures r.Some? ==> TriggerFormatCode(r.value) == code
  {
    if code == TRIGGER_FORMAT_TRIGGER_COUNTER then Some(TriggerCounter)
    else if code == TRIGGER_FORMAT_TIMESTAMP then Some(TimeStamp)
    else if code == TRIGGER_FORMAT_COMBINED then Some(Combined)
    else None
  }

  lemma TriggerFormatCodeRoundTrip(f: TriggerFormat)
    ensures TriggerFormatFromCode(TriggerFormatCode(f)) == Some(f)
  {
  }

  /** The trigger format a code selects according to the setter's comment:
      0 the combined 15-bit time stamp and 16-bit number, 1 the 31-bit
      number, 2 the 31-bit time stamp. */
  function DocumentedTriggerFormat(code: nat): (r: Option<TriggerFormat>)
    ensures r.Some? <==> code < 3
  {
    if code == 0 then Some(Combined)
    else if code == 1 then Some(TriggerCounter)
    else if code == 2 then Some(TimeStamp)
    else None
  }

  /** The comment and the named constants disagree on every code: no format
      is selected by the same code under both. */
  lemma TriggerFormatNumberingsDisagree(code: nat)
    requires code < 3
    ensures DocumentedTriggerFormat(code) != TriggerFormatFromCode(code)
  {
  }

  /** What a trigger word carries under a format: a trigger number, a time
      stamp, or both. */
  datatype TriggerFields = TriggerFields(number: Option<Word>, timeStamp: Option<Word>)

  /** Splits a trigger word by format: the counter format reads the 31-bit
      number, the time stamp format the 31-bit time stamp, the combined format
      the 16-bit number and the time stamp left in place in bits 16 to 30. */
  function SplitTriggerWord(x: Word, f: TriggerFormat): (r: TriggerFields)
    ensures r.number.Some? <==> f != TimeStamp
    ensures r.timeStamp.Some? <==> f != TriggerCounter
    ensures f == Combined ==> r.number.value < 0x1_0000 && r.timeStamp.value & 0xFFFF == 0
  {
    match f
    case TriggerCounter => TriggerFields(Some(TriggerNumber(x)), None)
    case TimeStamp => TriggerFields(None, Some(TriggerTimeStamp(x)))
    case Combined => TriggerFields(Some(TriggerNumberCombined(x)), Some(TriggerTimeStampCombined(x)))
  }

  /** The bits a split carries, put back together. */
  function Reassembled(t: TriggerFields): Word {
    match t
    case TriggerFields(Some(n), Some(s)) => n | s
    case TriggerFields(Some(n), None) => n
    case TriggerFields(None, Some(s)) => s
    case TriggerFields(None, None) => 0
  }

  /** Under every format the split loses nothing but the header bit: its
      parts give back the low 31 bits of the word. */
  lemma SplitTriggerWordLossless(x: Word, f: TriggerFormat)
    ensures Reassembled(SplitTriggerWord(x, f)) == x & 0x7FFF_FFFF
  {
    match f
    case TriggerCounter => CounterIsLow31(x);
    case TimeStamp => TimeStampIsLow31(x);
    case Combined => CombinedIsLow31(x);
  }

  lemma CounterIsLow31(x: Word)
    ensures TriggerNumber(x) == x & 0x7FFF_FFFF
  {
  }

  lemma TimeStampIsLow31(x: Word)
    ensures TriggerTimeStamp(x) == x & 0x7FFF_FFFF
  {
  }

  lemma CombinedIsLow31(x: Word)
    ensures TriggerNumberCombined(x) | TriggerTimeStampCombined(x) == x & 0x7FFF_FFFF
  {
    TriggerCombinedPartition(x);
  }

  // ---------------------------------------------------------------------------
  // Classifying a word

  datatype WordKind =
    | DataHeaderWord | DataRecordWord | AddressRecordWord | ValueRecordWord | ServiceRecordWord
    | TriggerWord | TdcWord | OtherWord | UnknownWord

  /** The kind of a raw word; since the kinds are disjoint the order of the
      tests does not matter, and a word matching none of them is unknown. */
  function Classify(x: Word): (k: WordKind)
    ensures k == DataHeaderWord <==> IsDataHeader(x)
    ensures k == DataRecordWord <==> IsDataRecord(x)
    ensures k == AddressRecordWord <==> IsAddressRecord(x)
    ensures k == ValueRecordWord <==> IsValueRecord(x)
    ensures k == ServiceRecordWord <==> IsServiceRecord(x)
    ensures k == TriggerWord <==> IsTriggerWord(x)
    ensures k == TdcWord <==> IsTdcWord(x)
    ensures k == OtherWord <==> IsOtherWord(x)
    ensures k == UnknownWord <==> KindMatches(x) == 0
  {
    KindsExclusive(x);
    if IsTriggerWord(x) then TriggerWord
    else if IsTdcWord(x) then TdcWord
    else if IsOtherWord(x) then OtherWord
    else if IsDataHeader(x) then DataHeaderWord
    else if IsDataRecord(x) then DataRecordWord
    else if IsAddressRecord(x) then AddressRecordWord
    else if IsValueRecord(x) then ValueRecordWord
    else if IsServiceRecord(x) then ServiceRecordWord
    else UnknownWord
  }

  /** Unknown words exist: a word with the data record header and column 0,
      and one with the top nibble 0101. */
  lemma UnknownWordsExist()
    ensures Classify(0x0000_0000) == UnknownWord && Classify(0x5000_0000) == UnknownWord
  {
  }
}
