/** The bit-level grammar of the FE-I4 readout stream: fixed-width integer
    types, the packed hit record, the detector and error-code constants, and
    for every kind of 32-bit raw word a recognising predicate and the field
    extractors built from a mask and a shift. */
module Defines {

  /** One raw 32-bit word of the readout stream. */
  type Word = bv32

  type u8 = x: int | 0 <= x < 0x100
  type u16 = x: int | 0 <= x < 0x1_0000
  type u32 = x: int | 0 <= x < 0x1_0000_0000
  type u64 = x: int | 0 <= x < 0x1_0000_0000_0000_0000
  type i64 = x: int | -0x8000_0000_0000_0000 <= x < 0x8000_0000_0000_0000

  /** One interpreted hit as it is stored in the output hit array. */
  datatype HitInfo = HitInfo(
    eventNumber: i64,
    triggerNumber: u32,
    relativeBcid: u8,
    lvl1id: u16,
    column: u8,
    row: u16,
    tot: u8,
    bcid: u16,
    tdc: u16,
    tdcTimeStamp: u8,
    triggerStatus: u8,
    serviceRecord: u32,
    eventStatus: u16)

  // ---------------------------------------------------------------------------
  // Detector and buffer constants

  const BCID_COUNTER_SIZE_FEI4A: Word := 256
  const BCID_COUNTER_SIZE_FEI4B: Word := 1024
  const N_SERVICE_RECORDS: nat := 32
  const MAX_ARRAY_SIZE: nat := 2000000
  const MAX_HIT_BUFFER_SIZE: nat := 4000000

  const RAW_DATA_MIN_COLUMN: Word := 1
  const RAW_DATA_MAX_COLUMN: Word := 80
  const RAW_DATA_MIN_ROW: Word := 1
  const RAW_DATA_MAX_ROW: Word := 336

  // ---------------------------------------------------------------------------
  // Event error codes: one bit each of the 16-bit event status

  const N_ERROR_CODES: nat := 16
  const NO_ERROR: bv16 := 0
  const HAS_SR: bv16 := 1
  const NO_TRG_WORD: bv16 := 2
  const NON_CONST_LVL1ID: bv16 := 4
  const EVENT_INCOMPLETE: bv16 := 8
  const UNKNOWN_WORD: bv16 := 16
  const BCID_JUMP: bv16 := 32
  const TRG_ERROR: bv16 := 64
  const TRUNC_EVENT: bv16 := 128
  const TDC_WORD: bv16 := 256
  const MANY_TDC_WORDS: bv16 := 512
  const TDC_OVERFLOW: bv16 := 1024
  const NO_HIT: bv16 := 2048
  const OTHER_WORD: bv16 := 4096

  // Trigger error codes: one bit each of the 8-bit trigger status (held in
  // a bv16 whose upper byte stays clear)

  const TRG_N_ERROR_CODES: nat := 8
  const TRG_NO_ERROR: bv16 := 0
  const TRG_NUMBER_INC_ERROR: bv16 := 1
  const TRG_NUMBER_MORE_ONE: bv16 := 2
  const TRG_ERROR_TRG_ACCEPT: bv16 := 4
  const TRG_ERROR_LOW_TIMEOUT: bv16 := 8

  // ---------------------------------------------------------------------------
  // Trigger words: 1xxx xxxx ...

  const TRIGGER_WORD_HEADER_MASK_NEW: Word := 0x8000_0000
  const TRIGGER_NUMBER_MASK_NEW: Word := 0x7FFF_FFFF
  const TRIGGER_TIME_STAMP_MASK: Word := 0x7FFF_FFFF
  const TRIGGER_NUMBER_MASK_COMBINED: Word := 0x0000_FFFF
  const TRIGGER_TIME_STAMP_MASK_COMBINED: Word := 0x7FFF_0000

  /** A trigger word: the top bit is set. */
  predicate IsTriggerWord(x: Word)
    ensures IsTriggerWord(x) <==> x >> 31 == 1
  {
    TRIGGER_WORD_HEADER_MASK_NEW & x == TRIGGER_WORD_HEADER_MASK_NEW
  }

  /** The trigger number of the trigger-counter format: the low 31 bits. */
  function TriggerNumber(x: Word): (r: Word)
    ensures r < 0x8000_0000
  {
    TRIGGER_NUMBER_MASK_NEW & x
  }

  /** The time stamp of the time-stamp format: the low 31 bits. */
  function TriggerTimeStamp(x: Word): (r: Word)
    ensures r < 0x8000_0000
  {
    TRIGGER_TIME_STAMP_MASK & x
  }

  /** The trigger number of the combined format: the low 16 bits. */
  function TriggerNumberCombined(x: Word): (r: Word)
    ensures r < 0x1_0000
  {
    TRIGGER_NUMBER_MASK_COMBINED & x
  }

  /** The time stamp of the combined format: bits 16..30, masked in place and
      NOT shifted down, so the value is a multiple of 2^16. */
  function TriggerTimeStampCombined(x: Word): (r: Word)
    ensures r & 0xFFFF == 0 && r >> 16 < 0x8000
  {
    TRIGGER_TIME_STAMP_MASK_COMBINED & x
  }

  /** The three trigger word formats, keyed by the named format constants. */
  datatype TriggerFormat = TriggerCounter | TimeStamp | Combined

  const TRIGGER_FORMAT_TRIGGER_COUNTER: nat := 0
  const TRIGGER_FORMAT_TIMESTAMP: nat := 1
  const TRIGGER_FORMAT_COMBINED: nat := 2

  // ---------------------------------------------------------------------------
  // TDC words: 0100 xxxx ...

  const N_TDC_VALUES: Word := 4096
  const N_TDC_PIXEL_VALUES: Word := 2048
  const N_TDC_DIST_VALUES: Word := 256
  const TDC_HEADER: Word := 0x4000_0000
  const TDC_HEADER_MASK: Word := 0xF000_0000
  const TDC_COUNT_MASK: Word := 0x0000_0FFF
  const TDC_TIME_STAMP_MASK: Word := 0x0FFF_F000
  const TDC_TRIG_DIST_MASK: Word := 0x0FF0_0000

  /** A TDC word: the top nibble is 0100. */
  predicate IsTdcWord(x: Word)
    ensures IsTdcWord(x) <==> x >> 28 == 4
  {
    TDC_HEADER_MASK & x == TDC_HEADER
  }

  function TdcCount(x: Word): (r: Word)
    ensures r < N_TDC_VALUES
  {
    TDC_COUNT_MASK & x
  }

  function TdcTimeStamp(x: Word): (r: Word)
    ensures r < 0x1_0000
  {
    (TDC_TIME_STAMP_MASK & x) >> 12
  }

  function TdcTriggerDistance(x: Word): (r: Word)
    ensures r < N_TDC_DIST_VALUES
  {
    (TDC_TRIG_DIST_MASK & x) >> 20
  }

  // ---------------------------------------------------------------------------
  // Words of other modules sharing the stream: one-hot headers 001x or 0001

  const OTHER_WORD_HEADER_3: Word := 0x2000_0000
  const OTHER_WORD_MASK_3: Word := 0xE000_0000
  const OTHER_WORD_HEADER_4: Word := 0x1000_0000
  const OTHER_WORD_MASK_4: Word := 0xF000_0000

  /** A word of another module: the top nibble is 0001, 0010 or 0011. */
  predicate IsOtherWord(x: Word)
    ensures IsOtherWord(x) <==> 1 <= x >> 28 <= 3
  {
    OTHER_WORD_MASK_3 & x == OTHER_WORD_HEADER_3 || OTHER_WORD_MASK_4 & x == OTHER_WORD_HEADER_4
  }

  // ---------------------------------------------------------------------------
  // Data header (DH)

  const DATA_HEADER: Word := 0x00E9_0000
  const DATA_HEADER_MASK: Word := 0xF0FF_0000
  const DATA_HEADER_FLAG_MASK: Word := 0x0000_8000
  const DATA_HEADER_LV1ID_MASK: Word := 0x0000_7F00
  const DATA_HEADER_LV1ID_MASK_FEI4B: Word := 0x0000_7C00
  const DATA_HEADER_BCID_MASK: Word := 0x0000_00FF
  const DATA_HEADER_BCID_MASK_FEI4B: Word := 0x0000_03FF

  /** A data header: top nibble 0000 and header byte 0xE9. */
  predicate IsDataHeader(x: Word)
    ensures IsDataHeader(x) <==> x >> 28 == 0 && (x >> 16) & 0xFF == 0xE9
  {
    DATA_HEADER_MASK & x == DATA_HEADER
  }

  function DataHeaderFlag(x: Word): (r: Word)
    ensures r <= 1
    ensures r == 1 <==> DataHeaderFlagSet(x)
  {
    (DATA_HEADER_FLAG_MASK & x) >> 15
  }

  /** The data header flag is bit 15. */
  predicate DataHeaderFlagSet(x: Word)
    ensures DataHeaderFlagSet(x) <==> x & 0x8000 != 0
  {
    DATA_HEADER_FLAG_MASK & x == DATA_HEADER_FLAG_MASK
  }

  /** FE-I4A: a 7-bit LVL1ID in bits 8..14. */
  function DataHeaderLvl1id(x: Word): (r: Word)
    ensures r < 0x80
  {
    (DATA_HEADER_LV1ID_MASK & x) >> 8
  }

  /** FE-I4B: a 5-bit LVL1ID in bits 10..14; its upper bits come in service record 14. */
  function DataHeaderLvl1idFeI4B(x: Word): (r: Word)
    ensures r < 0x20
  {
    (DATA_HEADER_LV1ID_MASK_FEI4B & x) >> 10
  }

  /** FE-I4A: an 8-bit BCID, below the FE-I4A BCID counter size. */
  function DataHeaderBcid(x: Word): (r: Word)
    ensures r < BCID_COUNTER_SIZE_FEI4A
  {
    DATA_HEADER_BCID_MASK & x
  }

  /** FE-I4B: a 10-bit BCID, below the FE-I4B BCID counter size. */
  function DataHeaderBcidFeI4B(x: Word): (r: Word)
    ensures r < BCID_COUNTER_SIZE_FEI4B
  {
    DATA_HEADER_BCID_MASK_FEI4B & x
  }

  // ---------------------------------------------------------------------------
  // Data record (DR): two hits of one double column packed in one word

  const DATA_RECORD: Word := 0x0000_0000
  const DATA_RECORD_MASK: Word := 0xF000_0000
  const DATA_RECORD_COLUMN_MASK: Word := 0x00FE_0000
  const DATA_RECORD_ROW_MASK: Word := 0x0001_FF00
  const DATA_RECORD_TOT1_MASK: Word := 0x0000_00F0
  const DATA_RECORD_TOT2_MASK: Word := 0x0000_000F

  const DATA_RECORD_MIN_COLUMN: Word := RAW_DATA_MIN_COLUMN << 17
  const DATA_RECORD_MAX_COLUMN: Word := RAW_DATA_MAX_COLUMN << 17
  const DATA_RECORD_MIN_ROW: Word := RAW_DATA_MIN_ROW << 8
  const DATA_RECORD_MAX_ROW: Word := RAW_DATA_MAX_ROW << 8

  /** A data record whose column and row fields lie on the pixel matrix:
      top nibble 0000, the 7-bit column at bit 17 in 1..80 and the 9-bit row
      at bit 8 in 1..336. */
  predicate IsDataRecord(x: Word)
    ensures IsDataRecord(x) <==>
      && x >> 28 == 0
      && 1 <= (x >> 17) & 0x7F <= 80
      && 1 <= (x >> 8) & 0x1FF <= 336
  {
    && DATA_RECORD_COLUMN_MASK & x <= DATA_RECORD_MAX_COLUMN
    && DATA_RECORD_COLUMN_MASK & x >= DATA_RECORD_MIN_COLUMN
    && DATA_RECORD_ROW_MASK & x <= DATA_RECORD_MAX_ROW
    && DATA_RECORD_ROW_MASK & x >= DATA_RECORD_MIN_ROW
    && DATA_RECORD_MASK & x == DATA_RECORD
  }

  /** Only the data record header: the top nibble is zero; no range checks. */
  predicate HasDataRecordHeader(x: Word)
    ensures HasDataRecordHeader(x) <==> x >> 28 == 0
  {
    DATA_RECORD_MASK & x == DATA_RECORD
  }

  function DataRecordColumn1(x: Word): (r: Word)
    ensures r < 0x80
    ensures IsDataRecord(x) ==> RAW_DATA_MIN_COLUMN <= r <= RAW_DATA_MAX_COLUMN
  {
    (DATA_RECORD_COLUMN_MASK & x) >> 17
  }

  function DataRecordRow1(x: Word): (r: Word)
    ensures r < 0x200
    ensures IsDataRecord(x) ==> RAW_DATA_MIN_ROW <= r <= RAW_DATA_MAX_ROW
  {
    (DATA_RECORD_ROW_MASK & x) >> 8
  }

  function DataRecordTot1(x: Word): (r: Word)
    ensures r <= 0xF
  {
    (DATA_RECORD_TOT1_MASK & x) >> 4
  }

  /** The second hit shares the column of the first. */
  function DataRecordColumn2(x: Word): (r: Word)
    ensures r == DataRecordColumn1(x)
  {
    (DATA_RECORD_COLUMN_MASK & x) >> 17
  }

  /** The second hit lies in the next row (row number one higher). */
  function DataRecordRow2(x: Word): (r: Word)
    ensures r == DataRecordRow1(x) + 1 && r <= 0x200
  {
    ((DATA_RECORD_ROW_MASK & x) >> 8) + 1
  }

  function DataRecordTot2(x: Word): (r: Word)
    ensures r <= 0xF
  {
    DATA_RECORD_TOT2_MASK & x
  }

  // ---------------------------------------------------------------------------
  // Address record (AR)

  const ADDRESS_RECORD: Word := 0x00EA_0000
  const ADDRESS_RECORD_MASK: Word := 0xF0FF_0000
  const ADDRESS_RECORD_TYPE_MASK: Word := 0x0000_8000
  const ADDRESS_RECORD_ADDRESS_MASK: Word := 0x0000_7FFF

  /** An address record: top nibble 0000 and header byte 0xEA. */
  predicate IsAddressRecord(x: Word)
    ensures IsAddressRecord(x) <==> x >> 28 == 0 && (x >> 16) & 0xFF == 0xEA
  {
    ADDRESS_RECORD_MASK & x == ADDRESS_RECORD
  }

  function AddressRecordType(x: Word): (r: Word)
    ensures r <= 1
    ensures r == 1 <==> AddressRecordTypeSet(x)
  {
    (ADDRESS_RECORD_TYPE_MASK & x) >> 15
  }

  /** The address record type is bit 15. */
  predicate AddressRecordTypeSet(x: Word)
    ensures AddressRecordTypeSet(x) <==> x & 0x8000 != 0
  {
    ADDRESS_RECORD_TYPE_MASK & x == ADDRESS_RECORD_TYPE_MASK
  }

  function AddressRecordAddress(x: Word): (r: Word)
    ensures r < 0x8000
  {
    ADDRESS_RECORD_ADDRESS_MASK & x
  }

  // ---------------------------------------------------------------------------
  // Value record (VR)

  const VALUE_RECORD: Word := 0x00EC_0000
  const VALUE_RECORD_MASK: Word := 0xF0FF_0000
  const VALUE_RECORD_VALUE_MASK: Word := 0x0000_FFFF

  /** A value record: top nibble 0000 and header byte 0xEC. */
  predicate IsValueRecord(x: Word)
    ensures IsValueRecord(x) <==> x >> 28 == 0 && (x >> 16) & 0xFF == 0xEC
  {
    VALUE_RECORD_MASK & x == VALUE_RECORD
  }

  function ValueRecordValue(x: Word): (r: Word)
    ensures r < 0x1_0000
  {
    VALUE_RECORD_VALUE_MASK & x
  }

  // ---------------------------------------------------------------------------
  // Service record (SR)

  const SERVICE_RECORD: Word := 0x00EF_0000
  const SERVICE_RECORD_MASK: Word := 0xF0FF_0000
  const SERVICE_RECORD_CODE_MASK: Word := 0x0000_FC00
  const SERVICE_RECORD_COUNTER_MASK: Word := 0x0000_03FF

  /** A service record: top nibble 0000 and header byte 0xEF. */
  predicate IsServiceRecord(x: Word)
    ensures IsServiceRecord(x) <==> x >> 28 == 0 && (x >> 16) & 0xFF == 0xEF
  {
    SERVICE_RECORD_MASK & x == SERVICE_RECORD
  }

  /** A 6-bit code: it can exceed the 32 service record histogram buckets. */
  function ServiceRecordCode(x: Word): (r: Word)
    ensures r < 0x40
  {
    (SERVICE_RECORD_CODE_MASK & x) >> 10
  }

  function ServiceRecordCounter(x: Word): (r: Word)
    ensures r < 0x400
  {
    SERVICE_RECORD_COUNTER_MASK & x
  }

  // FE-I4B service record 14: the upper LVL1ID bits and the lower BCID bits

  const SERVICE_RECORD_LV1ID_MASK_FEI4B: Word := 0x0000_03F8
  const SERVICE_RECORD_BCID_MASK_FEI4B: Word := 0x0000_0007

  function ServiceRecordLvl1idFeI4B(x: Word): (r: Word)
    ensures r < 0x80
  {
    (SERVICE_RECORD_LV1ID_MASK_FEI4B & x) >> 3
  }

  function ServiceRecordBcidFeI4B(x: Word): (r: Word)
    ensures r < 0x8
  {
    SERVICE_RECORD_BCID_MASK_FEI4B & x
  }

  // FE-I4B service record 16: trigger flag, event trigger counter, L1 request counter

  const SERVICE_RECORD_TF_MASK_FEI4B: Word := 0x0000_0200
  const SERVICE_RECORD_ETC_MASK_FEI4B: Word := 0x0000_01F0
  const SERVICE_RECORD_L1REQ_MASK_FEI4B: Word := 0x0000_000F

  function ServiceRecordTfFeI4B(x: Word): (r: Word)
    ensures r <= 1
  {
    (SERVICE_RECORD_TF_MASK_FEI4B & x) >> 9
  }

  function ServiceRecordEtcFeI4B(x: Word): (r: Word)
    ensures r < 0x20
  {
    (SERVICE_RECORD_ETC_MASK_FEI4B & x) >> 4
  }

  function ServiceRecordL1reqFeI4B(x: Word): (r: Word)
    ensures r < 0x10
  {
    SERVICE_RECORD_L1REQ_MASK_FEI4B & x
  }

  // ---------------------------------------------------------------------------
  // Properties of the grammar

  /** How many of the eight word kinds a word matches. */
  function KindMatches(x: Word): int {
    (if IsDataHeader(x) then 1 else 0) + (if IsDataRecord(x) then 1 else 0)
    + (if IsAddressRecord(x) then 1 else 0) + (if IsValueRecord(x) then 1 else 0)
    + (if IsServiceRecord(x) then 1 else 0) + (if IsTriggerWord(x) then 1 else 0)
    + (if IsTdcWord(x) then 1 else 0) + (if IsOtherWord(x) then 1 else 0)
  }

  /** The word kinds are pairwise disjoint: no word matches two of them, so the
      order in which they are tested never changes the outcome. */
  lemma KindsExclusive(x: Word)
    ensures KindMatches(x) <= 1
  {
    FeRecordsHaveZeroTopNibble(x);
    if IsDataHeader(x) || IsAddressRecord(x) || IsValueRecord(x) || IsServiceRecord(x) {
      DataRecordExcludesFeHeaders(x);
    }
  }

  /** All FE-I4 words (data header, data record, address, value and service
      record) have the top nibble 0000. */
  lemma FeRecordsHaveZeroTopNibble(x: Word)
    ensures (|| IsDataHeader(x) || IsDataRecord(x) || IsAddressRecord(x)
             || IsValueRecord(x) || IsServiceRecord(x)) ==> x >> 28 == 0
  {
  }

  /** Data headers, address, value and service records carry the data record
      header (top nibble zero), but their header bytes put the column field at
      116..119, beyond the last column, so they are never data records. */
  lemma DataRecordExcludesFeHeaders(x: Word)
    requires IsDataHeader(x) || IsAddressRecord(x) || IsValueRecord(x) || IsServiceRecord(x)
    ensures HasDataRecordHeader(x)
    ensures 116 <= DataRecordColumn1(x) <= 119
    ensures !IsDataRecord(x)
  {
  }

  /** Every data record carries the data record header, but not every word with
      that header is a data record. */
  lemma DataRecordHeaderIsWeaker(x: Word)
    ensures IsDataRecord(x) ==> HasDataRecordHeader(x)
    ensures HasDataRecordHeader(DATA_HEADER) && !IsDataRecord(DATA_HEADER)
  {
  }

  /** The flag, LVL1ID and BCID fields of a data header cover its low 16 bits
      exactly, in both FE flavours. */
  lemma DataHeaderFieldsPartition(x: Word)
    ensures x & 0xFFFF == (DataHeaderFlag(x) << 15) | (DataHeaderLvl1id(x) << 8) | DataHeaderBcid(x)
    ensures x & 0xFFFF == (DataHeaderFlag(x) << 15) | (DataHeaderLvl1idFeI4B(x) << 10) | DataHeaderBcidFeI4B(x)
  {
  }

  /** Column, row and both ToT codes cover the low 24 bits of a data record. */
  lemma DataRecordFieldsPartition(x: Word)
    ensures x & 0xFF_FFFF
         == (DataRecordColumn1(x) << 17) | (DataRecordRow1(x) << 8) | (DataRecordTot1(x) << 4) | DataRecordTot2(x)
  {
  }

  /** The service record code and counter cover the low 16 bits. */
  lemma ServiceRecordFieldsPartition(x: Word)
    ensures x & 0xFFFF == (ServiceRecordCode(x) << 10) | ServiceRecordCounter(x)
  {
  }

  /** The FE-I4B record 14 sub-fields split the 10-bit counter exactly. */
  lemma ServiceRecord14Partition(x: Word)
    ensures ServiceRecordCounter(x) == (ServiceRecordLvl1idFeI4B(x) << 3) | ServiceRecordBcidFeI4B(x)
  {
  }

  /** The FE-I4B record 16 sub-fields split the 10-bit counter exactly. */
  lemma ServiceRecord16Partition(x: Word)
    ensures ServiceRecordCounter(x)
         == (ServiceRecordTfFeI4B(x) << 9) | (ServiceRecordEtcFeI4B(x) << 4) | ServiceRecordL1reqFeI4B(x)
  {
  }

  /** A service record can carry a code beyond the 32 histogram buckets. */
  lemma ServiceRecordCodeCanExceedHistogram()
    ensures IsServiceRecord(0x00EF_FC00) && ServiceRecordCode(0x00EF_FC00) == 63
    ensures ServiceRecordCode(0x00EF_FC00) as int >= N_SERVICE_RECORDS
  {
  }

  /** The trigger distance is the upper byte of the 16-bit TDC time stamp. */
  lemma TdcTriggerDistanceIsTimeStampHighByte(x: Word)
    ensures TdcTriggerDistance(x) == TdcTimeStamp(x) >> 8
  {
  }

  /** In the combined trigger format the number and the unshifted time stamp
      are disjoint and together give back the low 31 bits. */
  lemma TriggerCombinedPartition(x: Word)
    ensures TriggerNumberCombined(x) & TriggerTimeStampCombined(x) == 0
    ensures TriggerNumberCombined(x) | TriggerTimeStampCombined(x) == TriggerNumber(x)
  {
  }
}
