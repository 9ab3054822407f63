/** The interpreter object: its analysis options, the variables of the event
    being built, the global counters, the hit array cursor, the meta data
    cursors and the five histograms, with the operations that the interface
    defines outright (setters, inline getters, the resets, adding error codes
    to the event and adding an event). */
module Interpret {
  import opened Wrappers
  import opened Defines
  import opened ErrorCodes
  import opened HitLayout
  import opened WordCheck

  /** The analysis options; `Reset` keeps them. */
  datatype Config = Config(
    hitInfoSize: u32,              // capacity of the output hit array
    nbCid: u32,                    // number of BCIDs read out per trigger
    maxTot: u32,                   // largest ToT code taken as a hit
    maxTdcDelay: Word,             // TDC words with a delay below it fit
    feI4B: bool,                   // FE-I4B layout instead of FE-I4A
    alignAtTriggerNumber: bool,    // a trigger word starts a new event
    alignAtTdcWord: bool,          // a TDC word starts a new event
    useTdcTriggerTimeStamp: bool,  // TDC time stamp is the trigger distance
    triggerFormat: u32,            // code of the trigger word format
    useTriggerTimeStamp: bool,     // trigger number is a clock count
    maxTriggerNumber: u32,         // largest trigger number before it wraps
    createEmptyEventHits: bool,    // store a virtual hit for events without hits
    createMetaDataWordIndex: bool) // fill the word index table per event

  /** The variables of the event being built. */
  datatype EventVariables = EventVariables(
    nDataWords: u32, nDataHeader: u32, nDataRecord: u32,
    startBcid: u32, startLvl1id: u32, dbCid: u32,
    triggerError: bv16,            // trigger status, one byte wide
    errorCode: bv16,               // event status
    serviceRecord: u32, eventTriggerNumber: u32, totalHits: u32,
    bcidError: bool, triggerWord: u32,
    tdcCount: u16, tdcTimeStamp: u8,
    hitBufferIndex: u32)           // hits of the event held in the hit buffer

  /** The event variables before the first word of an event. */
  const NO_EVENT: EventVariables :=
    EventVariables(0, 0, 0, 0, 0, 0, 0, 0, 0, 0, 0, false, 0, 0, 0, 0)

  /** The global counters over all raw data interpreted. */
  datatype Counters = Counters(
    nTriggers: u32, nEvents: u64, nMaxHitsPerEvent: u32, nEmptyEvents: u32, nIncompleteEvents: u32,
    nDataHeaders: u32, nDataRecords: u32, nAddressRecords: u32, nValueRecords: u32,
    nServiceRecords: u32, nTdcWords: u32, nOtherWords: u32, nUnknownWords: u32,
    nHits: u32, nSmallHits: u32, nDataWords: u32,
    firstTriggerNrSet: bool, firstTdcSet: bool)

  const NO_COUNTS: Counters :=
    Counters(0, 0, 0, 0, 0, 0, 0, 0, 0, 0, 0, 0, 0, 0, 0, 0, false, false)

  const EVENT_COUNTER_MODULUS: nat := 0x1_0000_0000_0000_0000

  predicate AllZero(s: seq<nat>) {
    forall i :: 0 <= i < |s| ==> s[i] == 0
  }

  /** Sets every bucket of a histogram to zero. */
  method ZeroFill(a: array<nat>)
    modifies a
    ensures AllZero(a[..])
  {
    var i := 0;
    while i < a.Length
      invariant 0 <= i <= a.Length
      invariant forall k :: 0 <= k < i ==> a[k] == 0
    {
      a[i] := 0;
      i := i + 1;
    }
  }

  /** Counts one status into a histogram indexed by bit position. */
  method CountBits(hist: array<nat>, status: bv16)
    requires hist.Length <= 16
    modifies hist
    ensures hist[..] == BitHistogram(old(hist[..]), status)
  {
    var i := 0;
    while i < hist.Length
      invariant 0 <= i <= hist.Length
      invariant forall k :: 0 <= k < hist.Length ==>
        hist[k] == old(hist[k]) + (if k < i && HasBit(status, k) then 1 else 0)
    {
      if HasBit(status, i) {
        hist[i] := hist[i] + 1;
      }
      i := i + 1;
    }
  }

  class Interpreter {
    var settings: Config
    var event: EventVariables
    var counters: Counters

    var hitIndex: u32              // hits stored in the output hit array
    var lastTriggerNumber: u32     // trigger number of the previous event
    var startWordIndex: u32        // word index of the first word of the event
    var dataWordIndex: u32         // word index in the raw data file

    var lastMetaIndexNotSet: u32   // filled length of the event index per read-out
    var actualMetaWordIndex: u32   // filled length of the word index per event
    var isMetaTableV2: bool        // flavour of the meta data table attached

    var triggerErrorCounter: array<nat>
    var errorCounter: array<nat>
    var tdcCounter: array<nat>
    var tdcTriggerDistance: array<nat>
    var serviceRecordCounter: array<nat>

    /** The histograms have their declared sizes (and so are five distinct
        arrays), the hit array holds no more hits than it has room for and the
        trigger status fits its byte. */
    ghost predicate Valid()
      reads this
    {
      && triggerErrorCounter.Length == TRG_N_ERROR_CODES
      && errorCounter.Length == N_ERROR_CODES
      && tdcCounter.Length == N_TDC_VALUES as nat
      && tdcTriggerDistance.Length == N_TDC_DIST_VALUES as nat
      && serviceRecordCounter.Length == N_SERVICE_RECORDS
      && hitIndex <= settings.hitInfoSize
      && event.triggerError < 0x100
    }

    /** Every histogram bucket is zero. */
    ghost predicate HistogramsCleared()
      reads this, triggerErrorCounter, errorCounter, tdcCounter, tdcTriggerDistance, serviceRecordCounter
    {
      && AllZero(triggerErrorCounter[..]) && AllZero(errorCounter[..]) && AllZero(tdcCounter[..])
      && AllZero(tdcTriggerDistance[..]) && AllZero(serviceRecordCounter[..])
    }

    /** All data cleared: no event under way, no counts, no hits stored, no
        meta data entries filled and empty histograms. */
    ghost predicate Cleared()
      reads this, triggerErrorCounter, errorCounter, tdcCounter, tdcTriggerDistance, serviceRecordCounter
    {
      && event == NO_EVENT && counters == NO_COUNTS
      && hitIndex == 0 && lastTriggerNumber == 0 && startWordIndex == 0 && dataWordIndex == 0
      && lastMetaIndexNotSet == 0 && actualMetaWordIndex == 0
      && HistogramsCleared()
    }

    constructor (config: Config)
      ensures Valid() && Cleared()
      ensures settings == config && !isMetaTableV2
      ensures fresh(triggerErrorCounter) && fresh(errorCounter) && fresh(tdcCounter)
      ensures fresh(tdcTriggerDistance) && fresh(serviceRecordCounter)
    {
      settings := config;
      event := NO_EVENT;
      counters := NO_COUNTS;
      hitIndex, lastTriggerNumber, startWordIndex, dataWordIndex := 0, 0, 0, 0;
      lastMetaIndexNotSet, actualMetaWordIndex, isMetaTableV2 := 0, 0, false;
      triggerErrorCounter := new nat[TRG_N_ERROR_CODES](_ => 0);
      errorCounter := new nat[N_ERROR_CODES](_ => 0);
      tdcCounter := new nat[N_TDC_VALUES as nat](_ => 0);
      tdcTriggerDistance := new nat[N_TDC_DIST_VALUES as nat](_ => 0);
      serviceRecordCounter := new nat[N_SERVICE_RECORDS](_ => 0);
    }

    // -------------------------------------------------------------------------
    // Resets

    /** Clears every global counter and flag. */
    method ResetCounters()
      modifies this`counters
      ensures counters == NO_COUNTS
    {
      counters := NO_COUNTS;
    }

    /** Clears the variables of the event being built, before a new event. The
        previous event's trigger number and the start word index are kept. */
    method ResetEventVariables()
      requires Valid()
      modifies this`event
      ensures Valid() && event == NO_EVENT
    {
      event := NO_EVENT;
    }

    /** Clears the five histograms in place. */
    method ResetHistograms()
      requires Valid()
      modifies triggerErrorCounter, errorCounter, tdcCounter, tdcTriggerDistance, serviceRecordCounter
      ensures HistogramsCleared()
    {
      ZeroFill(triggerErrorCounter);
      ZeroFill(errorCounter);
      ZeroFill(tdcCounter);
      ZeroFill(tdcTriggerDistance);
      ZeroFill(serviceRecordCounter);
    }

    /** Clears all data and keeps every option: afterwards the interpreter is
        as a newly made one with the same options. The frame names only data
        fields, so the options, the meta table flavour and the histogram arrays
        themselves are untouched. */
    method Reset()
      requires Valid()
      modifies this`counters, this`event, this`hitIndex, this`lastTriggerNumber, this`startWordIndex
      modifies this`dataWordIndex, this`lastMetaIndexNotSet, this`actualMetaWordIndex
      modifies triggerErrorCounter, errorCounter, tdcCounter, tdcTriggerDistance, serviceRecordCounter
      ensures Valid() && Cleared()
      ensures settings == old(settings)
    {
      ResetHistograms();
      ResetCounters();
      ResetEventVariables();
      ResetCursors();
    }

    /** Clears the positions kept across events: hits stored, the previous
        trigger number, the word indices and the meta data fill counts. */
    method ResetCursors()
      modifies this`hitIndex, this`lastTriggerNumber, this`startWordIndex
      modifies this`dataWordIndex, this`lastMetaIndexNotSet, this`actualMetaWordIndex
      ensures hitIndex == 0 && lastTriggerNumber == 0 && startWordIndex == 0 && dataWordIndex == 0
      ensures lastMetaIndexNotSet == 0 && actualMetaWordIndex == 0
    {
      hitIndex, lastTriggerNumber, startWordIndex, dataWordIndex := 0, 0, 0, 0;
      lastMetaIndexNotSet, actualMetaWordIndex := 0, 0;
    }

    // -------------------------------------------------------------------------
    // Analysis options

    /** Sets the capacity of the output hit array; the array is made anew, so
        no hits are stored in it. */
    /** Sets the capacity of the output hit array. The setter is read as
        providing a new, empty array, so the fill count restarts at zero. */
    method SetHitsArraySize(size: u32)
      requires Valid()
      modifies this`settings, this`hitIndex
      ensures Valid() && settings == old(settings).(hitInfoSize := size) && hitIndex == 0
    {
      settings := settings.(hitInfoSize := size);
      hitIndex := 0;
    }

    method CreateEmptyEventHits(create: bool := true)
      requires Valid()
      modifies this`settings
      ensures Valid() && settings == old(settings).(createEmptyEventHits := create)
    {
      settings := settings.(createEmptyEventHits := create);
    }

    method CreateMetaDataWordIndex(create: bool := true)
      requires Valid()
      modifies this`settings
      ensures Valid() && settings == old(settings).(createMetaDataWordIndex := create)
    {
      settings := settings.(createMetaDataWordIndex := create);
    }

    method SetNbCids(nbCid: u32)
      requires Valid()
      modifies this`settings
      ensures Valid() && settings == old(settings).(nbCid := nbCid)
    {
      settings := settings.(nbCid := nbCid);
    }

    method SetMaxTot(maxTot: u32)
      requires Valid()
      modifies this`settings
      ensures Valid() && settings == old(settings).(maxTot := maxTot)
    {
      settings := settings.(maxTot := maxTot);
    }

    method SetFeI4B(isFeI4B: bool := true)
      requires Valid()
      modifies this`settings
      ensures Valid() && settings == old(settings).(feI4B := isFeI4B)
    {
      settings := settings.(feI4B := isFeI4B);
    }

    method AlignAtTriggerNumber(align: bool := true)
      requires Valid()
      modifies this`settings
      ensures Valid() && settings == old(settings).(alignAtTriggerNumber := align)
    {
      settings := settings.(alignAtTriggerNumber := align);
    }

    method AlignAtTdcWord(align: bool := true)
      requires Valid()
      modifies this`settings
      ensures Valid() && settings == old(settings).(alignAtTdcWord := align)
    {
      settings := settings.(alignAtTdcWord := align);
    }

    method UseTdcTriggerTimeStamp(use: bool := true)
      requires Valid()
      modifies this`settings
      ensures Valid() && settings == old(settings).(useTdcTriggerTimeStamp := use)
    {
      settings := settings.(useTdcTriggerTimeStamp := use);
    }

    method SetMaxTdcDelay(maxTdcDelay: Word)
      requires Valid()
      modifies this`settings
      ensures Valid() && settings == old(settings).(maxTdcDelay := maxTdcDelay)
    {
      settings := settings.(maxTdcDelay := maxTdcDelay);
    }

    method UseTriggerTimeStamp(use: bool := true)
      requires Valid()
      modifies this`settings
      ensures Valid() && settings == old(settings).(useTriggerTimeStamp := use)
    {
      settings := settings.(useTriggerTimeStamp := use);
    }

    method SetTriggerFormat(code: u32)
      requires Valid()
      modifies this`settings
      ensures Valid() && settings == old(settings).(triggerFormat := code)
    {
      settings := settings.(triggerFormat := code);
    }

    method SetMaxTriggerNumber(maxTriggerNumber: u32)
      requires Valid()
      modifies this`settings
      ensures Valid() && settings == old(settings).(maxTriggerNumber := maxTriggerNumber)
    {
      settings := settings.(maxTriggerNumber := maxTriggerNumber);
    }

    /** The trigger word format the configured code selects, if any. */
    function TriggerFormatSelected(): (r: Option<TriggerFormat>)
      reads this
      ensures r.Some? <==> settings.triggerFormat < 3
      ensures r.Some? ==> TriggerFormatCode(r.value) == settings.triggerFormat
    {
      TriggerFormatFromCode(settings.triggerFormat)
    }

    /** Whether a raw word is a TDC word the configured delay limit admits. */
    predicate IsFittingTdc(x: Word)
      reads this
      ensures IsFittingTdc(x) ==> IsTdcWord(x) && TdcTriggerDistance(x) < settings.maxTdcDelay
      ensures settings.maxTdcDelay >= N_TDC_DIST_VALUES ==> (IsFittingTdc(x) <==> IsTdcWord(x))
    {
      TdcDelayLimits(x, settings.maxTdcDelay);
      IsFittingTdcWord(x, settings.maxTdcDelay)
    }

    // -------------------------------------------------------------------------
    // Inline getters; none of them changes anything

    function GetNarrayHits(): (r: u32)
      reads this
      requires Valid()
      ensures r == hitIndex && r <= settings.hitInfoSize
    {
      hitIndex
    }

    function GetNmetaDataEvent(): (r: u32)
      reads this
      ensures r == lastMetaIndexNotSet
    {
      lastMetaIndexNotSet
    }

    function GetNmetaDataWord(): (r: u32)
      reads this
      ensures r == actualMetaWordIndex
    {
      actualMetaWordIndex
    }

    function GetFeI4B(): (r: bool)
      reads this
      ensures r == settings.feI4B
    {
      settings.feI4B
    }

    function GetMetaTableV2(): (r: bool)
      reads this
      ensures r == isMetaTableV2
    {
      isMetaTableV2
    }

    function GetNhits(): (r: u32)
      reads this
      ensures r == counters.nHits
    {
      counters.nHits
    }

    function GetNunknownWords(): (r: u32)
      reads this
      ensures r == counters.nUnknownWords
    {
      counters.nUnknownWords
    }

    function GetNevents(): (r: u64)
      reads this
      ensures r == counters.nEvents
    {
      counters.nEvents
    }

    function GetNemptyEvents(): (r: u32)
      reads this
      ensures r == counters.nEmptyEvents
    {
      counters.nEmptyEvents
    }

    function GetNtriggers(): (r: u32)
      reads this
      ensures r == counters.nTriggers
    {
      counters.nTriggers
    }

    /** The getter for events whose trigger number did not increase by one,
        as written: it reads trigger error bucket 1, which counts events with
        more than one trigger (see ErrorCodes.NtriggerNotIncAsWrittenMisses). */
    function GetNtriggerNotInc(): (r: nat)
      reads this, triggerErrorCounter
      requires Valid()
      ensures r == NtriggerNotIncAsWritten(triggerErrorCounter[..])
    {
      triggerErrorCounter[1]
    }

    /** The getter for events with a trigger count other than one, as written:
        error bucket 1 plus trigger error bucket 2, which counts trigger accept
        errors (see ErrorCodes.NtriggerNotOneAsWrittenMisses). */
    function GetNtriggerNotOne(): (r: nat)
      reads this, errorCounter, triggerErrorCounter
      requires Valid()
      ensures r == NtriggerNotOneAsWritten(errorCounter[..], triggerErrorCounter[..])
    {
      errorCounter[1] + triggerErrorCounter[2]
    }

    /** The number of events whose trigger number did not increase by one,
        read from the bucket of that condition, bucket 0. */
    function GetNtriggerNotIncCorrected(): (r: nat)
      reads this, triggerErrorCounter
      requires Valid()
      ensures r == NtriggerNotInc(triggerErrorCounter[..])
    {
      triggerErrorCounter[TriggerErrorBit(TrgNumberIncError)]
    }

    /** The number of events without a trigger word plus those with more than
        one, read from the buckets of those two conditions. */
    function GetNtriggerNotOneCorrected(): (r: nat)
      reads this, errorCounter, triggerErrorCounter
      requires Valid()
      ensures r == NtriggerNotOne(errorCounter[..], triggerErrorCounter[..])
    {
      errorCounter[EventErrorBit(NoTrgWord)] + triggerErrorCounter[TriggerErrorBit(TrgNumberMoreOne)]
    }

    /** The size of one entry of the output hit array: the packed image of
        every hit takes this many bytes. */
    function GetHitSize(): (r: nat)
      ensures forall h: HitInfo :: |HitInfoToBytes(h)| == r
    {
      HIT_INFO_SIZE
    }

    // -------------------------------------------------------------------------
    // Building an event

    /** ORs an event error code into the status of the event being built. */
    method AddEventErrorCode(code: bv16)
      requires Valid()
      modifies this`event
      ensures Valid() && event == old(event).(errorCode := old(event.errorCode) | code)
    {
      event := event.(errorCode := event.errorCode | code);
    }

    /** ORs a one-byte trigger error code into the trigger status of the event. */
    method AddTriggerErrorCode(code: bv16)
      requires Valid() && code < 0x100
      modifies this`event
      ensures Valid() && event == old(event).(triggerError := old(event.triggerError) | code)
    {
      OrFitsByte(event.triggerError, code);
      event := event.(triggerError := event.triggerError | code);
    }

    /** Counts the event status into the error histogram, one bucket per bit. */
    method HistogramErrorCode()
      requires Valid()
      modifies errorCounter
      ensures errorCounter[..] == BitHistogram(old(errorCounter[..]), event.errorCode)
    {
      CountBits(errorCounter, event.errorCode);
    }

    /** Counts the trigger status into the trigger error histogram, one bucket per bit. */
    method HistogramTriggerErrorCode()
      requires Valid()
      modifies triggerErrorCounter
      ensures triggerErrorCounter[..] == BitHistogram(old(triggerErrorCounter[..]), event.triggerError)
    {
      CountBits(triggerErrorCounter, event.triggerError);
    }

    /** Adds the event being built: the event counter grows by exactly one
        (modulo 2^64, its width) and the error and trigger error statuses the
        event has on entry are counted into their histograms. The options are
        kept; what else the interpreter does on an event boundary (storing the
        event's hits, closing the event) is not modelled, so every other data
        field is left free. */
    method AddEvent()
      requires Valid()
      modifies this, errorCounter, triggerErrorCounter
      ensures Valid() && settings == old(settings) && isMetaTableV2 == old(isMetaTableV2)
      ensures counters.nEvents == (old(counters.nEvents) + 1) % EVENT_COUNTER_MODULUS
      ensures errorCounter[..] == BitHistogram(old(errorCounter[..]), old(event.errorCode))
      ensures triggerErrorCounter[..] == BitHistogram(old(triggerErrorCounter[..]), old(event.triggerError))
    {
      counters := counters.(nEvents := (counters.nEvents + 1) % EVENT_COUNTER_MODULUS);
      HistogramErrorCode();
      HistogramTriggerErrorCode();
    }
  }

  /** Two one-byte codes OR to a one-byte code. */
  lemma OrFitsByte(a: bv16, b: bv16)
    requires a < 0x100 && b < 0x100
    ensures a | b < 0x100
  {
  }
}
