/** The event and trigger error codes as single status bits: how the codes
    raised during one event are OR-ed into its status, that the status loses
    none of them, and the per-bit histograms that count, for each code, the
    events that raised it. */
module ErrorCodes {
  import opened Defines

  /** The conditions an event can be flagged with. */
  datatype EventError =
    | HasSr | NoTrgWord | NonConstLvl1id | EventIncomplete | UnknownWord | BcidJump | TrgError
    | TruncEvent | TdcWord | ManyTdcWords | TdcOverflow | NoHit | OtherWord

  /** The trigger conditions an event can be flagged with. */
  datatype TriggerError = TrgNumberIncError | TrgNumberMoreOne | TrgErrorTrgAccept | TrgErrorLowTimeout

  function EventErrorCode(e: EventError): bv16 {
    match e
    case HasSr => HAS_SR
    case NoTrgWord => NO_TRG_WORD
    case NonConstLvl1id => NON_CONST_LVL1ID
    case EventIncomplete => EVENT_INCOMPLETE
    case UnknownWord => UNKNOWN_WORD
    case BcidJump => BCID_JUMP
    case TrgError => TRG_ERROR
    case TruncEvent => TRUNC_EVENT
    case TdcWord => TDC_WORD
    case ManyTdcWords => MANY_TDC_WORDS
    case TdcOverflow => TDC_OVERFLOW
    case NoHit => NO_HIT
    case OtherWord => OTHER_WORD
  }

  function TriggerErrorCode(t: TriggerError): bv16 {
    match t
    case TrgNumberIncError => TRG_NUMBER_INC_ERROR
    case TrgNumberMoreOne => TRG_NUMBER_MORE_ONE
    case TrgErrorTrgAccept => TRG_ERROR_TRG_ACCEPT
    case TrgErrorLowTimeout => TRG_ERROR_LOW_TIMEOUT
  }

  /** The single-bit mask of bit position `i` of a 16-bit status. */
  function Bit(i: nat): bv16
    requires i < 16
  {
    if i == 0 then 0x0001 else if i == 1 then 0x0002 else if i == 2 then 0x0004 else if i == 3 then 0x0008
    else if i == 4 then 0x0010 else if i == 5 then 0x0020 else if i == 6 then 0x0040 else if i == 7 then 0x0080
    else if i == 8 then 0x0100 else if i == 9 then 0x0200 else if i == 10 then 0x0400 else if i == 11 then 0x0800
    else if i == 12 then 0x1000 else if i == 13 then 0x2000 else if i == 14 then 0x4000 else 0x8000
  }

  /** Whether bit `i` of a status is set. */
  predicate HasBit(status: bv16, i: nat)
    requires i < 16
  {
    Meets(status, Bit(i))
  }

  /** Every event error code is the single bit at its position, and the
      position indexes the error histogram of N_ERROR_CODES buckets. */
  function EventErrorBit(e: EventError): (i: nat)
    ensures i < N_ERROR_CODES && EventErrorCode(e) == Bit(i)
  {
    match e
    case HasSr => 0
    case NoTrgWord => 1
    case NonConstLvl1id => 2
    case EventIncomplete => 3
    case UnknownWord => 4
    case BcidJump => 5
    case TrgError => 6
    case TruncEvent => 7
    case TdcWord => 8
    case ManyTdcWords => 9
    case TdcOverflow => 10
    case NoHit => 11
    case OtherWord => 12
  }

  /** Every trigger error code is the single bit at its position, and the
      position indexes the trigger error histogram of TRG_N_ERROR_CODES buckets. */
  function TriggerErrorBit(t: TriggerError): (i: nat)
    ensures i < TRG_N_ERROR_CODES && TriggerErrorCode(t) == Bit(i)
  {
    match t
    case TrgNumberIncError => 0
    case TrgNumberMoreOne => 1
    case TrgErrorTrgAccept => 2
    case TrgErrorLowTimeout => 3
  }

  /** Distinct conditions have disjoint codes. */
  lemma ErrorCodesDisjoint(e1: EventError, e2: EventError, t1: TriggerError, t2: TriggerError)
    ensures Meets(EventErrorCode(e1), EventErrorCode(e2)) <==> e1 == e2
    ensures Meets(TriggerErrorCode(t1), TriggerErrorCode(t2)) <==> t1 == t2
  {
  }

  // ---------------------------------------------------------------------------
  // Accumulating codes into a status

  /** Whether every bit of a code is set in a status. */
  predicate Holds(status: bv16, code: bv16) {
    status & code == code
  }

  /** The status after OR-ing each code into an initially clear status, in
      order; it holds every code. */
  function Accumulate(codes: seq<bv16>): (status: bv16)
    ensures forall k :: 0 <= k < |codes| ==> Holds(status, codes[k])
  {
    if codes == [] then 0 else
      var init, last := codes[..|codes| - 1], codes[|codes| - 1];
      var before := Accumulate(init);
      OrKeepsCodes(before, last, init);
      OrSetsBits(before, last);
      assert codes == init + [last];
      before | last
  }

  /** OR-ing a code into a status keeps every code the status held. */
  lemma OrKeepsCodes(before: bv16, last: bv16, init: seq<bv16>)
    requires forall k :: 0 <= k < |init| ==> Holds(before, init[k])
    ensures forall k :: 0 <= k < |init| ==> Holds(before | last, init[k])
  {
    forall k | 0 <= k < |init| ensures Holds(before | last, init[k]) {
      OrKeepsCode(before, last, init[k]);
    }
  }

  lemma OrKeepsCode(a: bv16, b: bv16, c: bv16)
    requires Holds(a, c)
    ensures Holds(a | b, c)
  {
  }

  lemma OrSetsBits(a: bv16, b: bv16)
    ensures Holds(a | b, b)
  {
  }

  /** Whether a status has any of the bits of a mask set. */
  predicate Meets(status: bv16, mask: bv16) {
    status & mask != 0
  }

  /** Whether some code of the sequence meets the mask. */
  predicate AnyMeets(codes: seq<bv16>, m: bv16) {
    codes != [] && (AnyMeets(codes[..|codes| - 1], m) || Meets(codes[|codes| - 1], m))
  }

  /** The accumulated status meets a mask exactly when some code meets it. */
  lemma AccumulateMeetsMask(codes: seq<bv16>, m: bv16)
    ensures Meets(Accumulate(codes), m) <==> exists k :: 0 <= k < |codes| && Meets(codes[k], m)
  {
    AccumulateMeetsAny(codes, m);
    AnyMeetsWitness(codes, m);
  }

  lemma {:induction false} AccumulateMeetsAny(codes: seq<bv16>, m: bv16)
    ensures Meets(Accumulate(codes), m) == AnyMeets(codes, m)
  {
    if codes != [] {
      var init, last := codes[..|codes| - 1], codes[|codes| - 1];
      var before := Accumulate(init);
      assert Accumulate(codes) == before | last;
      AccumulateMeetsAny(init, m);
      OrUnderMask(before, last, m);
    }
  }

  lemma {:induction false} AnyMeetsWitness(codes: seq<bv16>, m: bv16)
    ensures AnyMeets(codes, m) <==> exists k :: 0 <= k < |codes| && Meets(codes[k], m)
  {
    if codes != [] {
      var init := codes[..|codes| - 1];
      AnyMeetsWitness(init, m);
      if AnyMeets(init, m) {
        var k :| 0 <= k < |init| && Meets(init[k], m);
        assert codes[k] == init[k];
      } else if !Meets(codes[|codes| - 1], m) {
        forall k | 0 <= k < |codes| ensures !Meets(codes[k], m) {
          if k < |init| {
            assert codes[k] == init[k];
          }
        }
      }
    }
  }

  lemma OrUnderMask(a: bv16, b: bv16, m: bv16)
    ensures Meets(a | b, m) <==> Meets(a, m) || Meets(b, m)
  {
    assert (a | b) & m == (a & m) | (b & m);
  }

  /** Codes that fit a byte accumulate to a status that fits a byte. */
  lemma {:induction false} AccumulateFitsByte(codes: seq<bv16>)
    requires forall k :: 0 <= k < |codes| ==> codes[k] < 0x100
    ensures Accumulate(codes) < 0x100
  {
    if codes != [] {
      AccumulateFitsByte(codes[..|codes| - 1]);
    }
  }

  /** The codes of the raised event conditions, in order. */
  function EventCodes(raised: seq<EventError>): seq<bv16>
  {
    seq(|raised|, k requires 0 <= k < |raised| => EventErrorCode(raised[k]))
  }

  /** The codes of the raised trigger conditions; each fits the one-byte
      trigger status. */
  function TriggerCodes(raised: seq<TriggerError>): (codes: seq<bv16>)
    ensures forall k :: 0 <= k < |codes| ==> codes[k] < 0x100
  {
    seq(|raised|, k requires 0 <= k < |raised| => TriggerErrorCode(raised[k]))
  }

  /** The event status after the given conditions were raised, in order. */
  function EventStatus(raised: seq<EventError>): (status: bv16)
    ensures forall k :: 0 <= k < |raised| ==> Holds(status, EventErrorCode(raised[k]))
  {
    var codes := EventCodes(raised);
    assert forall k :: 0 <= k < |raised| ==> codes[k] == EventErrorCode(raised[k]);
    Accumulate(codes)
  }

  /** The trigger status after the given conditions were raised, in order;
      it fits the 8-bit trigger status. */
  function TriggerStatus(raised: seq<TriggerError>): (s: bv16)
    ensures s < 0x100
  {
    AccumulateFitsByte(TriggerCodes(raised));
    Accumulate(TriggerCodes(raised))
  }

  /** OR-combining event error codes is lossless: each condition can be read
      back from the status, at its bit position, and only the raised ones are set. */
  lemma EventStatusLossless(raised: seq<EventError>, e: EventError)
    ensures Meets(EventStatus(raised), EventErrorCode(e)) <==> e in raised
    ensures HasBit(EventStatus(raised), EventErrorBit(e)) <==> e in raised
  {
    var codes := EventCodes(raised);
    AccumulateMeetsMask(codes, EventErrorCode(e));
    if e in raised {
      var k :| 0 <= k < |raised| && raised[k] == e;
      ErrorCodesDisjoint(e, e, TrgNumberIncError, TrgNumberIncError);
      assert Meets(codes[k], EventErrorCode(e));
    } else {
      forall k | 0 <= k < |codes| ensures !Meets(codes[k], EventErrorCode(e)) {
        ErrorCodesDisjoint(raised[k], e, TrgNumberIncError, TrgNumberIncError);
      }
    }
  }

  /** OR-combining trigger error codes is lossless in the same way. */
  lemma TriggerStatusLossless(raised: seq<TriggerError>, t: TriggerError)
    ensures Meets(TriggerStatus(raised), TriggerErrorCode(t)) <==> t in raised
    ensures HasBit(TriggerStatus(raised), TriggerErrorBit(t)) <==> t in raised
  {
    var codes := TriggerCodes(raised);
    AccumulateMeetsMask(codes, TriggerErrorCode(t));
    if t in raised {
      var k :| 0 <= k < |raised| && raised[k] == t;
      ErrorCodesDisjoint(HasSr, HasSr, t, t);
      assert Meets(codes[k], TriggerErrorCode(t));
    } else {
      forall k | 0 <= k < |codes| ensures !Meets(codes[k], TriggerErrorCode(t)) {
        ErrorCodesDisjoint(HasSr, HasSr, raised[k], t);
      }
    }
  }

  // ---------------------------------------------------------------------------
  // Histograms indexed by bit position

  /** A histogram after counting one event status: every bucket whose bit is
      set in the status grows by one, the others stay. */
  function BitHistogram(hist: seq<nat>, status: bv16): seq<nat>
    requires |hist| <= 16
  {
    seq(|hist|, i requires 0 <= i < |hist| => hist[i] + (if HasBit(status, i) then 1 else 0))
  }

  /** The error histogram bucket of a condition grows by one exactly for an
      event that raised it. */
  lemma EventHistogramCountsRaised(hist: seq<nat>, raised: seq<EventError>, e: EventError)
    requires |hist| == N_ERROR_CODES
    ensures BitHistogram(hist, EventStatus(raised))[EventErrorBit(e)]
         == hist[EventErrorBit(e)] + (if e in raised then 1 else 0)
  {
    EventStatusLossless(raised, e);
  }

  /** The trigger error histogram bucket of a condition grows by one exactly
      for an event that raised it. */
  lemma TriggerHistogramCountsRaised(hist: seq<nat>, raised: seq<TriggerError>, t: TriggerError)
    requires |hist| == TRG_N_ERROR_CODES
    ensures BitHistogram(hist, TriggerStatus(raised))[TriggerErrorBit(t)]
         == hist[TriggerErrorBit(t)] + (if t in raised then 1 else 0)
  {
    TriggerStatusLossless(raised, t);
  }

  // ---------------------------------------------------------------------------
  // Trigger statistics read from the histograms

  /** The number of not increasing trigger numbers, read as the inline getter
      reads it: bucket 1 of the trigger error histogram. */
  function NtriggerNotIncAsWritten(triggerErrorCounter: seq<nat>): (r: nat)
    requires |triggerErrorCounter| == TRG_N_ERROR_CODES
    ensures r == triggerErrorCounter[TriggerErrorBit(TrgNumberMoreOne)]
  {
    triggerErrorCounter[1]
  }

  /** The number of events with a trigger count other than one, read as the
      inline getter reads it: error bucket 1 plus trigger error bucket 2. */
  function NtriggerNotOneAsWritten(errorCounter: seq<nat>, triggerErrorCounter: seq<nat>): (r: nat)
    requires |errorCounter| == N_ERROR_CODES && |triggerErrorCounter| == TRG_N_ERROR_CODES
    ensures r == errorCounter[EventErrorBit(NoTrgWord)] + triggerErrorCounter[TriggerErrorBit(TrgErrorTrgAccept)]
  {
    errorCounter[1] + triggerErrorCounter[2]
  }

  /** Bucket 1 of the trigger error histogram counts events with more than one
      trigger, not events whose trigger number did not increase: an event
      raising only the not-increasing condition leaves the getter at zero, and
      one raising only the more-than-one condition moves it. */
  lemma NtriggerNotIncAsWrittenMisses()
    ensures var zeros := seq(TRG_N_ERROR_CODES, _ => 0);
      && NtriggerNotIncAsWritten(BitHistogram(zeros, TriggerStatus([TrgNumberIncError]))) == 0
      && NtriggerNotIncAsWritten(BitHistogram(zeros, TriggerStatus([TrgNumberMoreOne]))) == 1
  {
    var zeros: seq<nat> := seq(TRG_N_ERROR_CODES, _ => 0);
    TriggerHistogramCountsRaised(zeros, [TrgNumberIncError], TrgNumberMoreOne);
    TriggerHistogramCountsRaised(zeros, [TrgNumberMoreOne], TrgNumberMoreOne);
  }

  /** Bucket 2 of the trigger error histogram counts TLU trigger-accept errors:
      an event that raised only the more-than-one-trigger condition is not
      counted by the getter, while a trigger-accept error is. */
  lemma NtriggerNotOneAsWrittenMisses()
    ensures var errors := seq(N_ERROR_CODES, _ => 0);
            var triggers := seq(TRG_N_ERROR_CODES, _ => 0);
      && NtriggerNotOneAsWritten(BitHistogram(errors, EventStatus([])),
                                 BitHistogram(triggers, TriggerStatus([TrgNumberMoreOne]))) == 0
      && NtriggerNotOneAsWritten(BitHistogram(errors, EventStatus([])),
                                 BitHistogram(triggers, TriggerStatus([TrgErrorTrgAccept]))) == 1
  {
    var errors: seq<nat> := seq(N_ERROR_CODES, _ => 0);
    var triggers: seq<nat> := seq(TRG_N_ERROR_CODES, _ => 0);
    EventHistogramCountsRaised(errors, [], NoTrgWord);
    TriggerHistogramCountsRaised(triggers, [TrgNumberMoreOne], TrgErrorTrgAccept);
    TriggerHistogramCountsRaised(triggers, [TrgErrorTrgAccept], TrgErrorTrgAccept);
  }

  /** The number of not increasing trigger numbers, read from the bucket of
      the not-increasing condition. */
  function NtriggerNotInc(triggerErrorCounter: seq<nat>): (r: nat)
    requires |triggerErrorCounter| == TRG_N_ERROR_CODES
    ensures r == triggerErrorCounter[0]
  {
    triggerErrorCounter[TriggerErrorBit(TrgNumberIncError)]
  }

  /** The number of events without a trigger word plus those with more than
      one, read from the buckets of those two conditions. */
  function NtriggerNotOne(errorCounter: seq<nat>, triggerErrorCounter: seq<nat>): (r: nat)
    requires |errorCounter| == N_ERROR_CODES && |triggerErrorCounter| == TRG_N_ERROR_CODES
    ensures r == errorCounter[1] + triggerErrorCounter[1]
  {
    errorCounter[EventErrorBit(NoTrgWord)] + triggerErrorCounter[TriggerErrorBit(TrgNumberMoreOne)]
  }

  /** Counting one event moves the corrected not-increasing count by one
      exactly when the event raised that condition. */
  lemma NtriggerNotIncCountsRaised(triggerErrorCounter: seq<nat>, raised: seq<TriggerError>)
    requires |triggerErrorCounter| == TRG_N_ERROR_CODES
    ensures NtriggerNotInc(BitHistogram(triggerErrorCounter, TriggerStatus(raised)))
         == NtriggerNotInc(triggerErrorCounter) + (if TrgNumberIncError in raised then 1 else 0)
  {
    TriggerHistogramCountsRaised(triggerErrorCounter, raised, TrgNumberIncError);
  }

  /** Counting one event moves the corrected trigger-count-not-one total by
      one for a missing trigger word and by one for more than one trigger. */
  lemma NtriggerNotOneCountsRaised(errorCounter: seq<nat>, triggerErrorCounter: seq<nat>,
                                   eventRaised: seq<EventError>, triggerRaised: seq<TriggerError>)
    requires |errorCounter| == N_ERROR_CODES && |triggerErrorCounter| == TRG_N_ERROR_CODES
    ensures NtriggerNotOne(BitHistogram(errorCounter, EventStatus(eventRaised)),
                           BitHistogram(triggerErrorCounter, TriggerStatus(triggerRaised)))
         == NtriggerNotOne(errorCounter, triggerErrorCounter)
            + (if NoTrgWord in eventRaised then 1 else 0)
            + (if TrgNumberMoreOne in triggerRaised then 1 else 0)
  {
    EventHistogramCountsRaised(errorCounter, eventRaised, NoTrgWord);
    TriggerHistogramCountsRaised(triggerErrorCounter, triggerRaised, TrgNumberMoreOne);
  }
}
