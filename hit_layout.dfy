/** The byte image of one HitInfo record as it lies in the output hit array:
    the thirteen fields in declaration order, packed without padding (one-byte
    packing), each field little-endian, the event number in two's complement. */
module HitLayout {
  import opened Defines

  function Pow256(n: nat): nat {
    if n == 0 then 1 else 256 * Pow256(n - 1)
  }

  /** The little-endian image of `v` in `width` bytes. */
  function LittleEndian(v: nat, width: nat): (bytes: seq<u8>)
    requires v < Pow256(width)
    ensures |bytes| == width
  {
    if width == 0 then [] else [v % 256] + LittleEndian(v / 256, width - 1)
  }

  /** The value of a little-endian byte sequence; it fits the sequence's width. */
  function FromLittleEndian(bytes: seq<u8>): (v: nat)
    ensures v < Pow256(|bytes|)
  {
    if bytes == [] then 0 else bytes[0] + 256 * FromLittleEndian(bytes[1..])
  }

  lemma {:induction false} LittleEndianRoundTrip(v: nat, width: nat)
    requires v < Pow256(width)
    ensures FromLittleEndian(LittleEndian(v, width)) == v
  {
    if width > 0 {
      LittleEndianRoundTrip(v / 256, width - 1);
      assert LittleEndian(v, width)[1..] == LittleEndian(v / 256, width - 1);
    }
  }

  lemma {:induction false} FromLittleEndianRoundTrip(bytes: seq<u8>)
    ensures LittleEndian(FromLittleEndian(bytes), |bytes|) == bytes
  {
    if bytes != [] {
      var rest := FromLittleEndian(bytes[1..]);
      FromLittleEndianRoundTrip(bytes[1..]);
      var v := bytes[0] + 256 * rest;
      assert v % 256 == bytes[0] && v / 256 == rest;
      assert bytes == [bytes[0]] + bytes[1..];
    }
  }

  // ---------------------------------------------------------------------------
  // Fields of given widths, packed back to back

  function Sum(widths: seq<nat>): nat {
    if widths == [] then 0 else widths[0] + Sum(widths[1..])
  }

  /** Every value fits the width of its field. */
  predicate Fits(values: seq<nat>, widths: seq<nat>) {
    |values| == |widths| && forall i :: 0 <= i < |values| ==> values[i] < Pow256(widths[i])
  }

  function Pack(values: seq<nat>, widths: seq<nat>): (bytes: seq<u8>)
    requires Fits(values, widths)
    ensures |bytes| == Sum(widths)
  {
    if values == [] then [] else LittleEndian(values[0], widths[0]) + Pack(values[1..], widths[1..])
  }

  function Unpack(bytes: seq<u8>, widths: seq<nat>): (values: seq<nat>)
    requires |bytes| == Sum(widths)
    ensures Fits(values, widths)
  {
    if widths == [] then []
    else [FromLittleEndian(bytes[..widths[0]])] + Unpack(bytes[widths[0]..], widths[1..])
  }

  lemma {:induction false} UnpackPack(values: seq<nat>, widths: seq<nat>)
    requires Fits(values, widths)
    ensures Unpack(Pack(values, widths), widths) == values
  {
    if values != [] {
      var head := LittleEndian(values[0], widths[0]);
      var tail := Pack(values[1..], widths[1..]);
      assert (head + tail)[..widths[0]] == head;
      assert (head + tail)[widths[0]..] == tail;
      LittleEndianRoundTrip(values[0], widths[0]);
      UnpackPack(values[1..], widths[1..]);
      assert values == [values[0]] + values[1..];
    }
  }

  lemma {:induction false} PackUnpack(bytes: seq<u8>, widths: seq<nat>)
    requires |bytes| == Sum(widths)
    ensures Pack(Unpack(bytes, widths), widths) == bytes
  {
    if widths != [] {
      var values := Unpack(bytes, widths);
      FromLittleEndianRoundTrip(bytes[..widths[0]]);
      PackUnpack(bytes[widths[0]..], widths[1..]);
      assert values[1..] == Unpack(bytes[widths[0]..], widths[1..]);
      assert bytes == bytes[..widths[0]] + bytes[widths[0]..];
    }
  }

  // ---------------------------------------------------------------------------
  // The HitInfo record

  /** Byte widths of the HitInfo fields in declaration order:
      event number, trigger number, relative BCID, LVL1ID, column, row, ToT,
      BCID, TDC, TDC time stamp, trigger status, service record, event status. */
  const HIT_INFO_FIELD_WIDTHS: seq<nat> := [8, 4, 1, 2, 1, 2, 1, 2, 2, 1, 1, 4, 2]

  /** The size of one packed hit record in bytes. */
  const HIT_INFO_SIZE: nat := 31

  lemma Pow256Values()
    ensures Pow256(1) == 0x100 && Pow256(2) == 0x1_0000 && Pow256(4) == 0x1_0000_0000
    ensures Pow256(8) == 0x1_0000_0000_0000_0000
  {
  }

  /** The two's complement image of a signed 64-bit value. */
  function Unsigned64(v: i64): (u: nat)
    ensures u < 0x1_0000_0000_0000_0000
    ensures u < 0x8000_0000_0000_0000 <==> v >= 0
  {
    if v < 0 then v + 0x1_0000_0000_0000_0000 else v
  }

  /** The signed 64-bit value whose two's complement image is `u`. */
  function Signed64(u: nat): (v: i64)
    requires u < 0x1_0000_0000_0000_0000
    ensures v < 0 <==> u >= 0x8000_0000_0000_0000
  {
    if u >= 0x8000_0000_0000_0000 then u - 0x1_0000_0000_0000_0000 else u
  }

  /** Two's complement is a bijection between signed values and 64-bit images. */
  lemma TwosComplementRoundTrip(v: i64, u: nat)
    requires u < 0x1_0000_0000_0000_0000
    ensures Signed64(Unsigned64(v)) == v
    ensures Unsigned64(Signed64(u)) == u
  {
  }

  function FieldValues(h: HitInfo): (values: seq<nat>)
    ensures Fits(values, HIT_INFO_FIELD_WIDTHS)
  {
    Pow256Values();
    [Unsigned64(h.eventNumber), h.triggerNumber, h.relativeBcid, h.lvl1id, h.column, h.row, h.tot,
     h.bcid, h.tdc, h.tdcTimeStamp, h.triggerStatus, h.serviceRecord, h.eventStatus]
  }

  function FromFieldValues(values: seq<nat>): HitInfo
    requires Fits(values, HIT_INFO_FIELD_WIDTHS)
  {
    Pow256Values();
    HitInfo(Signed64(values[0]), values[1], values[2], values[3], values[4], values[5], values[6],
            values[7], values[8], values[9], values[10], values[11], values[12])
  }

  /** The packed image of a hit; every hit takes exactly HIT_INFO_SIZE bytes. */
  function HitInfoToBytes(h: HitInfo): (bytes: seq<u8>)
    ensures |bytes| == HIT_INFO_SIZE
  {
    Pack(FieldValues(h), HIT_INFO_FIELD_WIDTHS)
  }

  /** The hit read from a packed image; every 31-byte image is the image of
      exactly the hit read from it. */
  function HitInfoFromBytes(bytes: seq<u8>): (h: HitInfo)
    requires |bytes| == HIT_INFO_SIZE
    ensures HitInfoToBytes(h) == bytes
  {
    PackUnpack(bytes, HIT_INFO_FIELD_WIDTHS);
    FieldValuesInverse(Unpack(bytes, HIT_INFO_FIELD_WIDTHS));
    FromFieldValues(Unpack(bytes, HIT_INFO_FIELD_WIDTHS))
  }

  /** Reading back the image of a hit gives the hit. */
  lemma HitInfoRoundTrip(h: HitInfo)
    ensures HitInfoFromBytes(HitInfoToBytes(h)) == h
  {
    UnpackPack(FieldValues(h), HIT_INFO_FIELD_WIDTHS);
    TwosComplementRoundTrip(h.eventNumber, 0);
  }

  lemma FieldValuesInverse(values: seq<nat>)
    requires Fits(values, HIT_INFO_FIELD_WIDTHS)
    ensures FieldValues(FromFieldValues(values)) == values
  {
    var back := FieldValues(FromFieldValues(values));
    TwosComplementRoundTrip(0, values[0]);
    assert forall i | 1 <= i < 13 :: back[i] == values[i];
  }
}
