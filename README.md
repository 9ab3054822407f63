# FE-I4 raw data interpreter: word grammar and interpreter state

This project models the core of the pyBAR FE-I4 raw data interpreter in Dafny.

The FE-I4 readout delivers a stream of 32-bit words. `defines.h` fixes the bit-level grammar of that stream:

- data headers, with an FE-I4A and an FE-I4B layout;
- data records carrying two pixel hits;
- address, value and service records, the last with the FE-I4B code 14 and 16 sub-layouts;
- trigger words in three formats;
- TDC words and "other" words with a one-hot header.

It also fixes the event and trigger error bits and the packed 31-byte `HitInfo` output record.

`Interpret.h` declares the interpreter built on that grammar:

- word-check decoders;
- analysis options;
- the variables of the event being built;
- global counters;
- the hit array cursor;
- five histograms;
- the operations that act on them.

Modules:

- `Defines` (`defines.dfy`) holds the following, with range contracts and lemmas showing that the word kinds are disjoint and that the fields of each kind partition its bits:
  - the constants;
  - the `HitInfo` record;
  - the recognising predicate of every word kind;
  - every field extractor.
- `HitLayout` (`hit_layout.dfy`) is the byte image of a `HitInfo`:
  - thirteen fields, packed without padding, little-endian;
  - the event number in two's complement;
  - proved to be 31 bytes, with round trips in both directions.
- `ErrorCodes` (`error_codes.dfy`) covers the following, together with the trigger-statistics reading of the histograms (see Findings):
  - error codes as single status bits;
  - OR-accumulating them into an event status, proved lossless;
  - the histograms that count, per bit position, the events that raised each code.
- `WordCheck` (`word_check.dfy`) holds the interpreter's word-check methods as functions returning `Option`:
  - `None` stands for "returns false";
  - the FE flavour, trigger format and TDC delay limit are parameters;
  - it also holds a classifier of raw words into kinds.
- `Interpret` (`interpret.dfy`) holds the class `Interpreter`:
  - options, event variables and counters are datatype-valued fields that the methods reassign;
  - the histograms are arrays of the declared sizes;
  - methods for the resets, setters, inline getters, adding error codes and adding an event.
- `Wrappers` (`wrappers.dfy`) holds `Option`.

Raw words are `bv32`. The boolean word checks `isTdcWord`, `isTriggerWord`, `isOtherWord`, and the one-argument `isAddressRecord` and `isValueRecord`, are the predicates `Defines.IsTdcWord`, `Defines.IsTriggerWord`, `Defines.IsOtherWord`, `Defines.IsAddressRecord` and `Defines.IsValueRecord`. The header-only `isDataRecord` is `WordCheck.IsDataRecordWord`.

Three readings of the source had to be chosen:

- **Trigger format numbering.** The setter's comment (`Interpret.h:56`) numbers the formats 0 = 15-bit time stamp + 16-bit number, 1 = 31-bit number, 2 = 31-bit time stamp. The named constants (`defines.h:157-159`) number them 0 = counter, 1 = time stamp, 2 = combined. The model follows the named constants. `WordCheck.TriggerFormatNumberingsDisagree` proves that the two numberings assign a different format to every code.
- **Reasonable hit information.** `getHitsfromDataRecord` (`Interpret.h:96`) is declared to accept only data records whose hit information is reasonable, and its body is not part of this model. The model reads this as follows:
  - the word has the data record header;
  - hit 1 lies on the 80 x 336 pixel matrix and its ToT nibble is not 15, the FE-I4 code for "no hit";
  - hit 2 is present exactly when its ToT nibble is not 15, and when present it must lie on the matrix too.
- **Histogram buckets.** The error histograms are read as one bucket per bit position: 16 buckets for the 16-bit event status and 8 for the one-byte trigger status, as their declared sizes give.

## Model

| member | source | states |
|---|---|---|
| `Defines.TriggerNumber` | pybar_fei4_interpreter/defines.h:148-153 | the trigger number of the counter format is below 2^31 |
| `Defines.TriggerTimeStamp` | pybar_fei4_interpreter/defines.h:149-154 | the time stamp of the time-stamp format is below 2^31 |
| `Defines.TriggerNumberCombined` | pybar_fei4_interpreter/defines.h:150-155 | the combined-format number is a 16-bit value |
| `Defines.TriggerTimeStampCombined` | pybar_fei4_interpreter/defines.h:151-156 | the combined-format time stamp is left unshifted: its low 16 bits are zero and it has 15 significant bits above them |
| `Defines.TriggerCombinedPartition` | pybar_fei4_interpreter/defines.h:148-156 | the combined number and time stamp are disjoint and together give the 31-bit counter-format value |
| `Defines.IsTriggerWord` | pybar_fei4_interpreter/defines.h:147-152 | a word is a trigger word exactly when bit 31 is set |
| `Defines.TdcCount` | pybar_fei4_interpreter/defines.h:167-171 | the TDC count is below `__N_TDC_VALUES` (4096) |
| `Defines.TdcTimeStamp` | pybar_fei4_interpreter/defines.h:168-172 | the TDC time stamp is a 16-bit value |
| `Defines.TdcTriggerDistance` | pybar_fei4_interpreter/defines.h:169-173 | the trigger distance is below `__N_TDC_DIST_VALUES` (256) |
| `Defines.TdcTriggerDistanceIsTimeStampHighByte` | pybar_fei4_interpreter/defines.h:168-173 | the trigger distance is the upper byte of the TDC time stamp |
| `Defines.IsTdcWord` | pybar_fei4_interpreter/defines.h:165-170 | a word is a TDC word exactly when its top nibble is 0100 |
| `Defines.IsOtherWord` | pybar_fei4_interpreter/defines.h:176-180 | a word is an other word exactly when its top nibble is 0001 or 001x (1 to 3) |
| `Defines.IsDataHeader` | pybar_fei4_interpreter/defines.h:183-191 | a word is a data header exactly when its top nibble is 0000 and bits 16-23 are 0xE9 |
| `Defines.DataHeaderFlagSet` | pybar_fei4_interpreter/defines.h:185-193 | the flag-set test is bit 15 |
| `Defines.DataHeaderFlag` | pybar_fei4_interpreter/defines.h:192-193 | the flag is 0 or 1, and 1 exactly when the flag-set test holds |
| `Defines.DataHeaderLvl1id` | pybar_fei4_interpreter/defines.h:194 | the FE-I4A LVL1ID is a 7-bit value (at most 127) |
| `Defines.DataHeaderLvl1idFeI4B` | pybar_fei4_interpreter/defines.h:195 | the FE-I4B LVL1ID is a 5-bit value (at most 31) |
| `Defines.DataHeaderBcid` | pybar_fei4_interpreter/defines.h:196 | the FE-I4A BCID is below `__BCIDCOUNTERSIZE_FEI4A` (256) |
| `Defines.DataHeaderBcidFeI4B` | pybar_fei4_interpreter/defines.h:197 | the FE-I4B BCID is below `__BCIDCOUNTERSIZE_FEI4B` (1024) |
| `Defines.DataHeaderFieldsPartition` | pybar_fei4_interpreter/defines.h:185-197 | flag, LVL1ID and BCID cover the low 16 bits exactly, in both flavours |
| `Defines.IsDataRecord` | pybar_fei4_interpreter/defines.h:200-212 | the data record macro holds exactly for top nibble 0000 with the column field (bits 17-23) in 1..80 and the row field (bits 8-16) in 1..336 |
| `Defines.HasDataRecordHeader` | pybar_fei4_interpreter/defines.h:200-201 | the data record header test is top nibble 0000 |
| `Defines.DataRecordColumn1` | pybar_fei4_interpreter/defines.h:212-213 | column 1 is a 7-bit field, and lies in 1..80 for every word the data record macro accepts |
| `Defines.DataRecordRow1` | pybar_fei4_interpreter/defines.h:212-214 | row 1 is a 9-bit field, and lies in 1..336 for every word the data record macro accepts |
| `Defines.DataRecordTot1` | pybar_fei4_interpreter/defines.h:215 | ToT 1 is at most 15 |
| `Defines.DataRecordColumn2` | pybar_fei4_interpreter/defines.h:216 | hit 2 has the column of hit 1 |
| `Defines.DataRecordRow2` | pybar_fei4_interpreter/defines.h:217 | hit 2 is in the next row: the row of hit 1 plus one (at most 512) |
| `Defines.DataRecordTot2` | pybar_fei4_interpreter/defines.h:218 | ToT 2 is at most 15 |
| `Defines.DataRecordFieldsPartition` | pybar_fei4_interpreter/defines.h:202-218 | column, row and both ToTs cover the low 24 bits exactly |
| `Defines.DataRecordHeaderIsWeaker` | pybar_fei4_interpreter/defines.h:200-212 | every data record has the data record header; the data header word has it too but is no data record |
| `Defines.IsAddressRecord` | pybar_fei4_interpreter/defines.h:221-226 | a word is an address record exactly when its top nibble is 0000 and bits 16-23 are 0xEA |
| `Defines.AddressRecordTypeSet` | pybar_fei4_interpreter/defines.h:223-228 | the type-set test is bit 15 |
| `Defines.AddressRecordType` | pybar_fei4_interpreter/defines.h:227-228 | the type is 0 or 1, and 1 exactly when the type-set test holds |
| `Defines.AddressRecordAddress` | pybar_fei4_interpreter/defines.h:229 | the address is a 15-bit value |
| `Defines.IsValueRecord` | pybar_fei4_interpreter/defines.h:232-236 | a word is a value record exactly when its top nibble is 0000 and bits 16-23 are 0xEC |
| `Defines.ValueRecordValue` | pybar_fei4_interpreter/defines.h:237 | the value is a 16-bit value |
| `Defines.IsServiceRecord` | pybar_fei4_interpreter/defines.h:240-245 | a word is a service record exactly when its top nibble is 0000 and bits 16-23 are 0xEF |
| `Defines.ServiceRecordCode` | pybar_fei4_interpreter/defines.h:246 | the code is a 6-bit value (0..63) |
| `Defines.ServiceRecordCounter` | pybar_fei4_interpreter/defines.h:247 | the counter is a 10-bit value |
| `Defines.ServiceRecordFieldsPartition` | pybar_fei4_interpreter/defines.h:242-247 | code and counter cover the low 16 bits exactly |
| `Defines.ServiceRecordCodeCanExceedHistogram` | pybar_fei4_interpreter/defines.h:240-246 | a valid service record can carry code 63, beyond the 32 service record buckets (`__NSERVICERECORDS`, defines.h line 101) |
| `Defines.ServiceRecordLvl1idFeI4B` | pybar_fei4_interpreter/defines.h:252 | the FE-I4B code 14 LVL1ID is a 7-bit value |
| `Defines.ServiceRecordBcidFeI4B` | pybar_fei4_interpreter/defines.h:253 | the FE-I4B code 14 BCID is a 3-bit value |
| `Defines.ServiceRecord14Partition` | pybar_fei4_interpreter/defines.h:250-253 | the code 14 LVL1ID (bits 3-9) and BCID (bits 0-2) split the 10-bit counter exactly |
| `Defines.ServiceRecordTfFeI4B` | pybar_fei4_interpreter/defines.h:258 | the code 16 TF bit is 0 or 1 |
| `Defines.ServiceRecordEtcFeI4B` | pybar_fei4_interpreter/defines.h:259 | the code 16 ETC field is a 5-bit value |
| `Defines.ServiceRecordL1reqFeI4B` | pybar_fei4_interpreter/defines.h:260 | the code 16 L1REQ field is a 4-bit value |
| `Defines.ServiceRecord16Partition` | pybar_fei4_interpreter/defines.h:255-260 | TF (bit 9), ETC (bits 4-8) and L1REQ (bits 0-3) split the 10-bit counter exactly |
| `Defines.KindsExclusive` | pybar_fei4_interpreter/defines.h:147-245 | no word matches two of the eight word kinds, so at most one of data header, address, value and service record holds |
| `Defines.FeRecordsHaveZeroTopNibble` | pybar_fei4_interpreter/defines.h:183-245 | every FE-I4 word (DH, DR, AR, VR, SR) has top nibble 0000 |
| `Defines.DataRecordExcludesFeHeaders` | pybar_fei4_interpreter/defines.h:183-245 | DH, AR, VR and SR words carry the data record header but put the column field at 116..119, so no data record matches them |
| `HitLayout.LittleEndianRoundTrip` | pybar_fei4_interpreter/defines.h:16-30 | reading back the little-endian image of a field value gives the value |
| `HitLayout.FromLittleEndianRoundTrip` | pybar_fei4_interpreter/defines.h:16-30 | every byte image of a field is the image of the value read from it |
| `HitLayout.UnpackPack` | pybar_fei4_interpreter/defines.h:5-30 | unpacking fields packed back to back without padding gives the fields |
| `HitLayout.PackUnpack` | pybar_fei4_interpreter/defines.h:5-30 | packing the fields unpacked from an image gives the image |
| `HitLayout.TwosComplementRoundTrip` | pybar_fei4_interpreter/defines.h:17 | the signed 64-bit event number and its two's complement image determine each other |
| `HitLayout.HitInfoToBytes` | pybar_fei4_interpreter/defines.h:16-30 | every hit record is exactly 31 bytes under one-byte packing |
| `HitLayout.HitInfoRoundTrip` | pybar_fei4_interpreter/defines.h:16-30 | reading a hit back from its 31-byte image gives the hit |
| `HitLayout.HitInfoFromBytes` | pybar_fei4_interpreter/defines.h:16-30 | every 31-byte image is the image of the hit read from it |
| `ErrorCodes.EventErrorBit` | pybar_fei4_interpreter/defines.h:106-120 | each event error code is the single bit at a position below `__N_ERROR_CODES` (16) |
| `ErrorCodes.TriggerErrorBit` | pybar_fei4_interpreter/defines.h:123-128 | each trigger error code is the single bit at a position below `__TRG_N_ERROR_CODES` (8) |
| `ErrorCodes.ErrorCodesDisjoint` | pybar_fei4_interpreter/defines.h:106-128 | two error codes share a bit exactly when they are the same code |
| `ErrorCodes.Accumulate` | pybar_fei4_interpreter/Interpret.h:106-107 | the status OR-accumulated from a sequence of codes has every bit of every code set |
| `ErrorCodes.AccumulateMeetsMask` | pybar_fei4_interpreter/Interpret.h:106-107 | the OR of a sequence of codes meets a mask exactly when one of the codes does |
| `ErrorCodes.AccumulateFitsByte` | pybar_fei4_interpreter/Interpret.h:106 | OR-ing one-byte codes gives a one-byte status |
| `ErrorCodes.TriggerStatus` | pybar_fei4_interpreter/Interpret.h:172 | the accumulated trigger status fits its one-byte field |
| `ErrorCodes.EventStatus` | pybar_fei4_interpreter/Interpret.h:107 | the event status has every bit of the code of every raised condition set |
| `ErrorCodes.EventStatusLossless` | pybar_fei4_interpreter/defines.h:106-120 | a condition's code, and the bit at its position, are set in the event status exactly when the condition was raised |
| `ErrorCodes.TriggerStatusLossless` | pybar_fei4_interpreter/defines.h:123-128 | a trigger condition's code, and its bit, are set in the trigger status exactly when it was raised |
| `ErrorCodes.EventHistogramCountsRaised` | pybar_fei4_interpreter/Interpret.h:109 | a condition's error bucket grows by one exactly for an event that raised it |
| `ErrorCodes.TriggerHistogramCountsRaised` | pybar_fei4_interpreter/Interpret.h:108 | a trigger condition's bucket grows by one exactly for an event that raised it |
| `ErrorCodes.NtriggerNotIncAsWritten` | pybar_fei4_interpreter/Interpret.h:73 | as written, the not-increasing count is the bucket of `__TRG_NUMBER_MORE_ONE` (bit 1) |
| `ErrorCodes.NtriggerNotOneAsWritten` | pybar_fei4_interpreter/Interpret.h:74 | as written, the trigger-count-not-one total is the `__NO_TRG_WORD` bucket plus the `__TRG_ERROR_TRG_ACCEPT` bucket (bit 2) |
| `ErrorCodes.NtriggerNotInc` | pybar_fei4_interpreter/Interpret.h:73 | corrected, the not-increasing count is bucket 0, the bit of `__TRG_NUMBER_INC_ERROR` |
| `ErrorCodes.NtriggerNotOne` | pybar_fei4_interpreter/Interpret.h:74 | corrected, the total is error bucket 1 (`__NO_TRG_WORD`) plus trigger error bucket 1 (`__TRG_NUMBER_MORE_ONE`) |
| `ErrorCodes.NtriggerNotIncAsWrittenMisses` | pybar_fei4_interpreter/Interpret.h:73 | as written, the not-increasing count ignores an event raising only that condition and counts one with more than one trigger |
| `ErrorCodes.NtriggerNotOneAsWrittenMisses` | pybar_fei4_interpreter/Interpret.h:74 | as written, the trigger-count-not-one total ignores an event with more than one trigger and counts a trigger-accept error |
| `ErrorCodes.NtriggerNotIncCountsRaised` | pybar_fei4_interpreter/Interpret.h:73 | the corrected not-increasing count grows by one exactly for an event raising that condition |
| `ErrorCodes.NtriggerNotOneCountsRaised` | pybar_fei4_interpreter/Interpret.h:74 | the corrected total grows by one for an event without a trigger word and by one for an event with more than one trigger |
| `WordCheck.GetTimeFromDataHeader` | pybar_fei4_interpreter/Interpret.h:93 | yields a time exactly for data headers; LVL1ID and BCID are bounded by the selected flavour and together are the 15 bits below the flag |
| `WordCheck.FeI4ATime` | pybar_fei4_interpreter/defines.h:194-196 | the FE-I4A LVL1ID (7 bits) and BCID (8 bits) together are bits 0-14 |
| `WordCheck.FeI4BTime` | pybar_fei4_interpreter/defines.h:195-197 | the FE-I4B LVL1ID (5 bits) and BCID (10 bits) together are bits 0-14 |
| `WordCheck.IsDataRecordWord` | pybar_fei4_interpreter/Interpret.h:94 | the header-only data record test holds exactly for top nibble 0000; no column, row or ToT limit is checked |
| `WordCheck.GetHitsFromDataRecord` | pybar_fei4_interpreter/Interpret.h:96 | yields hits exactly when the word has the data record header, hit 1 is reasonable (on the 80 x 336 matrix, ToT not the no-hit code 15) and hit 2 is absent or reasonable; hit 2 is present exactly when its ToT is not 15, and then lies in the same column, in the next row |
| `WordCheck.SecondSlotFollowsFirst` | pybar_fei4_interpreter/defines.h:213-218 | the second hit slot is the first slot's column, the next row, and ToT 2 |
| `WordCheck.MacroAcceptanceIsReasonable` | pybar_fei4_interpreter/Interpret.h:96 | the data record macro, a ToT 1 other than 15 and, when ToT 2 is not 15, a row 1 below 336 together hold exactly when both present hits are reasonable |
| `WordCheck.DataRecordMacroBoundsFirstHit` | pybar_fei4_interpreter/defines.h:207-214 | the data record macro is exactly the header test plus the matrix limits on the column and row of hit 1 |
| `WordCheck.DataRecordHitsLossless` | pybar_fei4_interpreter/defines.h:202-218 | the hits of an accepted word give back its low 24 bits, an absent hit 2 standing for ToT code 15 |
| `WordCheck.DataRecordTestsNested` | pybar_fei4_interpreter/Interpret.h:94-96 | every word whose hits are accepted passes the header-only data record test, and the all-zero word passes that test without being accepted |
| `WordCheck.SecondHitCanLeaveMatrix` | pybar_fei4_interpreter/defines.h:212-217 | the data record macro bounds hit 1 only: it accepts a record in row 336 whose hit 2 is in row 337; the decoder refuses that record, and takes the same position with ToT 2 = 15 as one hit |
| `WordCheck.FirstSlotMustHoldHit` | pybar_fei4_interpreter/Interpret.h:96 | a record the macro accepts but whose ToT 1 is the no-hit code 15 yields no hits |
| `WordCheck.GetInfoFromServiceRecord` | pybar_fei4_interpreter/Interpret.h:97 | yields code and counter exactly for service records; the code has 6 bits, the counter 10, and together they are the low 16 bits |
| `WordCheck.GetAddressRecord` | pybar_fei4_interpreter/Interpret.h:99 | yields an address exactly for address records; the shift-register flag is bit 15, the address the 15 bits below, and together they are the low half |
| `WordCheck.AddressInfo` | pybar_fei4_interpreter/defines.h:223-229 | type flag and address of an address record give back its low 16 bits |
| `WordCheck.GetValueRecord` | pybar_fei4_interpreter/Interpret.h:101 | yields a value exactly for value records, namely the whole low half of the word |
| `WordCheck.IsFittingTdcWord` | pybar_fei4_interpreter/Interpret.h:54 | a word fits exactly when it is a TDC word (top nibble 0100) whose trigger distance byte (bits 20-27) is below the maximum delay |
| `WordCheck.TdcDelayLimits` | pybar_fei4_interpreter/Interpret.h:54 | a maximum delay of 256 or more admits every TDC word, a maximum of 0 admits none |
| `WordCheck.TdcDelayMonotone` | pybar_fei4_interpreter/Interpret.h:54 | raising the maximum TDC delay never drops a fitting TDC word |
| `WordCheck.TriggerFormatCode` | pybar_fei4_interpreter/defines.h:157-159 | every trigger format has a code below 3 |
| `WordCheck.TriggerFormatFromCode` | pybar_fei4_interpreter/defines.h:157-159 | codes 0..2 select a format and exactly those; the selected format has that code |
| `WordCheck.TriggerFormatCodeRoundTrip` | pybar_fei4_interpreter/defines.h:157-159 | the code of a format selects that format |
| `WordCheck.DocumentedTriggerFormat` | pybar_fei4_interpreter/Interpret.h:56 | the comment's numbering selects a format for codes 0..2 and no others |
| `WordCheck.TriggerFormatNumberingsDisagree` | pybar_fei4_interpreter/Interpret.h:56 | the comment and the named constants assign a different format to every code 0..2 |
| `WordCheck.SplitTriggerWord` | pybar_fei4_interpreter/Interpret.h:160 | the counter format yields a number only, the time-stamp format a time stamp only, the combined format both (a 16-bit number and a time stamp with zero low half) |
| `WordCheck.SplitTriggerWordLossless` | pybar_fei4_interpreter/defines.h:147-156 | under every format the parts of a trigger word give back its low 31 bits |
| `WordCheck.CounterIsLow31` | pybar_fei4_interpreter/defines.h:148-153 | the counter-format trigger number is the low 31 bits of the word |
| `WordCheck.TimeStampIsLow31` | pybar_fei4_interpreter/defines.h:149-154 | the time-stamp-format time stamp is the low 31 bits of the word |
| `WordCheck.CombinedIsLow31` | pybar_fei4_interpreter/defines.h:150-156 | the combined-format number and time stamp together are the low 31 bits of the word |
| `WordCheck.Classify` | pybar_fei4_interpreter/defines.h:147-245 | a word gets each kind exactly when that kind's test holds, and is unknown exactly when none holds |
| `WordCheck.UnknownWordsExist` | pybar_fei4_interpreter/defines.h:176-212 | words of no kind exist: the all-zero word and a word with top nibble 0101 |
| `Interpret.ZeroFill` | pybar_fei4_interpreter/Interpret.h:121-133 | afterwards every bucket of the histogram is zero |
| `Interpret.CountBits` | pybar_fei4_interpreter/Interpret.h:108-109 | counts one status into a histogram, bucket by bit position, in place |
| `Interpret.Interpreter.constructor` | pybar_fei4_interpreter/Interpret.h:19 | a new interpreter has the given options, all data cleared and five fresh zero histograms of the declared sizes |
| `Interpret.Interpreter.ResetCounters` | pybar_fei4_interpreter/Interpret.h:38 | every global counter is zero and both first-seen flags are false |
| `Interpret.Interpreter.ResetEventVariables` | pybar_fei4_interpreter/Interpret.h:39 | every event variable, including the hit buffer index, is back to its initial value; nothing else changes |
| `Interpret.Interpreter.ResetHistograms` | pybar_fei4_interpreter/Interpret.h:40 | every bucket of the five histograms is zero |
| `Interpret.Interpreter.ResetCursors` | pybar_fei4_interpreter/Interpret.h:82 | the hit count, previous trigger number, word indices and meta data fill counts are zero; no other field changes |
| `Interpret.Interpreter.Reset` | pybar_fei4_interpreter/Interpret.h:82 | all data cleared as in a new interpreter, and every option unchanged |
| `Interpret.Interpreter.SetHitsArraySize` | pybar_fei4_interpreter/Interpret.h:43 | sets the hit array capacity and restarts the fill count at zero, as for a newly provided array (a reading, see Left out) |
| `Interpret.Interpreter.CreateEmptyEventHits` | pybar_fei4_interpreter/Interpret.h:44 | sets that option only |
| `Interpret.Interpreter.CreateMetaDataWordIndex` | pybar_fei4_interpreter/Interpret.h:45 | sets that option only |
| `Interpret.Interpreter.SetNbCids` | pybar_fei4_interpreter/Interpret.h:46 | sets the number of BCIDs per trigger only |
| `Interpret.Interpreter.SetMaxTot` | pybar_fei4_interpreter/Interpret.h:47 | sets the largest hit ToT only |
| `Interpret.Interpreter.SetFeI4B` | pybar_fei4_interpreter/Interpret.h:48 | sets the FE flavour only |
| `Interpret.Interpreter.GetFeI4B` | pybar_fei4_interpreter/Interpret.h:49 | returns the FE flavour set |
| `Interpret.Interpreter.GetMetaTableV2` | pybar_fei4_interpreter/Interpret.h:50 | returns the meta table flavour |
| `Interpret.Interpreter.AlignAtTriggerNumber` | pybar_fei4_interpreter/Interpret.h:51 | sets that option only |
| `Interpret.Interpreter.AlignAtTdcWord` | pybar_fei4_interpreter/Interpret.h:52 | sets that option only |
| `Interpret.Interpreter.UseTdcTriggerTimeStamp` | pybar_fei4_interpreter/Interpret.h:53 | sets that option only |
| `Interpret.Interpreter.SetMaxTdcDelay` | pybar_fei4_interpreter/Interpret.h:54 | sets the TDC delay limit only |
| `Interpret.Interpreter.IsFittingTdc` | pybar_fei4_interpreter/Interpret.h:54 | only TDC words whose trigger distance is below the configured delay fit; with a delay of 256 or more every TDC word fits |
| `Interpret.Interpreter.UseTriggerTimeStamp` | pybar_fei4_interpreter/Interpret.h:55 | sets that option only |
| `Interpret.Interpreter.SetTriggerFormat` | pybar_fei4_interpreter/Interpret.h:56 | sets the trigger format code only |
| `Interpret.Interpreter.TriggerFormatSelected` | pybar_fei4_interpreter/Interpret.h:160 | the configured code selects a format exactly when it is below 3, and the format has that code |
| `Interpret.Interpreter.SetMaxTriggerNumber` | pybar_fei4_interpreter/Interpret.h:57 | sets the largest trigger number only |
| `Interpret.Interpreter.GetNarrayHits` | pybar_fei4_interpreter/Interpret.h:33 | returns the filled hit count; its bound by the hit array capacity comes from the class invariant, which no modelled method tests because none stores a hit (see Left out) |
| `Interpret.Interpreter.GetNmetaDataEvent` | pybar_fei4_interpreter/Interpret.h:34 | returns the filled length of the event index table |
| `Interpret.Interpreter.GetNmetaDataWord` | pybar_fei4_interpreter/Interpret.h:35 | returns the filled length of the word index table |
| `Interpret.Interpreter.GetNhits` | pybar_fei4_interpreter/Interpret.h:67 | returns the global hit counter |
| `Interpret.Interpreter.GetNunknownWords` | pybar_fei4_interpreter/Interpret.h:69 | returns the global unknown word counter |
| `Interpret.Interpreter.GetNevents` | pybar_fei4_interpreter/Interpret.h:70 | returns the 64-bit event counter |
| `Interpret.Interpreter.GetNemptyEvents` | pybar_fei4_interpreter/Interpret.h:71 | returns the empty event counter |
| `Interpret.Interpreter.GetNtriggers` | pybar_fei4_interpreter/Interpret.h:72 | returns the trigger word counter |
| `Interpret.Interpreter.GetNtriggerNotInc` | pybar_fei4_interpreter/Interpret.h:73 | as written, returns trigger error bucket 1, which counts events with more than one trigger (see Findings) |
| `Interpret.Interpreter.GetNtriggerNotIncCorrected` | pybar_fei4_interpreter/Interpret.h:73 | returns the bucket of the not-increasing condition, which grows by one exactly for an event raising it |
| `Interpret.Interpreter.GetNtriggerNotOne` | pybar_fei4_interpreter/Interpret.h:74 | as written, returns error bucket 1 plus trigger error bucket 2, which counts trigger accept errors (see Findings) |
| `Interpret.Interpreter.GetNtriggerNotOneCorrected` | pybar_fei4_interpreter/Interpret.h:74 | returns the no-trigger-word bucket plus the more-than-one-trigger bucket |
| `Interpret.Interpreter.GetHitSize` | pybar_fei4_interpreter/Interpret.h:84 | the size of a hit entry is the length of every hit's packed image |
| `Interpret.Interpreter.AddEventErrorCode` | pybar_fei4_interpreter/Interpret.h:107 | ORs the code into the event status and changes nothing else |
| `Interpret.Interpreter.AddTriggerErrorCode` | pybar_fei4_interpreter/Interpret.h:106 | ORs a one-byte code into the trigger status, which stays one byte wide |
| `Interpret.Interpreter.HistogramErrorCode` | pybar_fei4_interpreter/Interpret.h:109 | counts the event status into the error histogram, one bucket per bit |
| `Interpret.Interpreter.HistogramTriggerErrorCode` | pybar_fei4_interpreter/Interpret.h:108 | counts the trigger status into the trigger error histogram, one bucket per bit |
| `Interpret.Interpreter.AddEvent` | pybar_fei4_interpreter/Interpret.h:59 | the event counter grows by exactly one, modulo 2^64; the error and trigger error statuses the event has on entry are counted into their histograms; the options are unchanged |

## Left out

- Interpret.h declares the interpreter's bodies, but they are in `Interpret.cpp`, which is not part of this model. So the following are left out, and the model invents no event-boundary, hit-storing or word-to-event correlation transitions:
  - `interpretRawData`, `addHit`, `storeHit`, `storeEventHits`;
  - `correlateMetaWordIndex`, `setMetaData`, `setMetaDataV2`, `resetMetaDataCounter`;
  - `getNwords`.
- `addServiceRecord`, `addTdcValue`, `addTdcDistanceValue`: their bodies are not part of this model, and the declarations leave open what happens to values beyond the histograms. A service record code can be up to 63 against 32 buckets, and a 16-bit TDC value can exceed the 4096 buckets.
- Print and debug output: `printSummary`, `printStatus`, `printHits`, `debugEvents`, `printInterpretedWords`, `printErrorCode`, the debug macros and the debug event range fields. These are console I/O.
- Heap allocation, deletion, and the pointer-returning getters and setters with a `copy` flag. The model owns its histograms as arrays and keeps only the capacity and fill count of the output hit array. The hits themselves are stored only by the left-out bodies.
- `setStandardSettings`: its defaults are not shown. The constructor takes the options as a parameter.
- The `Basis` base class, the trigger mode string, the meta data tables and their `double` time stamps, the per-word temporaries, the clusterizer records and constants. None is part of the word grammar or the interpreter state modelled here.
- `HitLayout.HitInfoToBytes`: takes every field as little-endian, which is the byte order of the hosts the record is written on. Big-endian hosts are not modelled.
- `Interpret.Interpreter.HistogramErrorCode`: buckets are unbounded naturals. The source's 32-bit unsigned buckets would wrap after 2^32 events; that wrap is not modelled.
- `Interpret.Interpreter.HistogramTriggerErrorCode`: buckets are unbounded naturals, as above.
- `Interpret.Interpreter.SetHitsArraySize`: the setter is read as providing a new hit array, so the fill count restarts at 0. The declaration only says the array must hold the hits of one event, and its body is not part of this model. This reading keeps the fill count within the capacity when the size shrinks; without it, the bound stated by `GetNarrayHits` would not hold after a shrink.
- `Interpret.Interpreter.AddEvent`: only the event count and the error histograms are stated. The histogrammed statuses are those the event has on entry; the left-out body may first add codes such as `__NO_TRG_WORD`, `__NO_HIT` or `__EVENT_INCOMPLETE`. Storing the event's hits, closing the event and resetting its variables are done by left-out bodies, so the contract leaves the other counters, the event variables and the cursors free.
- `Interpret.Interpreter.GetNarrayHits`: the bound by the hit array capacity is only as strong as the class invariant. Only the modelled methods are shown to keep it, and none of them stores a hit, because `storeHit` is left out.
- `WordCheck.GetHitsFromDataRecord`: the maximum-ToT filter set by `setMaxTot` is not applied here; the interpreter applies it when it adds a hit, in a left-out body.
- `Interpret.Interpreter.Reset`: "all data" is read as the counters, histograms, event variables, hit cursors, last trigger number, word indices and meta data cursors.
- `Interpret.Interpreter.ResetEventVariables`: the event variables are read as the `t`-prefixed fields of the event section and the hit buffer index. The previous trigger number and the start word index are kept.

## Findings

| source | as written | input that shows it | evidently intended | confidence | as-written member | corrected member |
|---|---|---|---|---|---|---|
| pybar_fei4_interpreter/Interpret.h:73 | `getNtriggerNotInc` returns trigger error bucket 1 | an event whose only trigger error is `__TRG_NUMBER_INC_ERROR` (code 1, bit 0) leaves the getter at 0; an event with only `__TRG_NUMBER_MORE_ONE` (code 2, bit 1) moves it to 1 | bucket 0, the bit of `__TRG_NUMBER_INC_ERROR` | medium, not executed: rests on the histograms being indexed by bit position, as their sizes indicate; the histogram bodies are not part of this model | `ErrorCodes.NtriggerNotIncAsWrittenMisses` | `ErrorCodes.NtriggerNotIncCountsRaised` |
| pybar_fei4_interpreter/Interpret.h:74 | `getNtriggerNotOne` returns error bucket 1 plus trigger error bucket 2 | an event with only `__TRG_NUMBER_MORE_ONE` is not counted; an event with only `__TRG_ERROR_TRG_ACCEPT` (code 4, bit 2) is | error bucket 1 (`__NO_TRG_WORD`) plus trigger error bucket 1 (`__TRG_NUMBER_MORE_ONE`) | medium, not executed: same reading of the histograms | `ErrorCodes.NtriggerNotOneAsWrittenMisses` | `ErrorCodes.NtriggerNotOneCountsRaised` |
