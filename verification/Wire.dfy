/** The byte protocol between clients and the bus server: message framing and payload codecs. */
module Wire {
  import opened Basics
  import opened LittleEndian
  import opened CanTypes

  const MSG_SEND_FRAME: Byte := 1
  const MSG_FRAME: Byte := 2
  const MSG_ACK: Byte := 3
  const MSG_SET_FILTERS: Byte := 4
  const MSG_HELLO: Byte := 5
  const MSG_FILTERS_ACK: Byte := 6

  const ACK_OK: Byte := 0
  const ACK_NO_ACK: Byte := 1
  const ACK_BAD_FRAME: Byte := 2
  const ACK_SERVER_ERR: Byte := 3

  const MAX_PAYLOAD_LEN: nat := 4096
  const FRAME_HDR_LEN: nat := 6
  const SEND_FRAME_HDR_LEN: nat := 14
  const ACK_LEN: nat := 9

  datatype DecodeError =
    | InvalidLength | InvalidDlc | InvalidExtendedId | InvalidStandardId | InvalidFrame

  datatype Decoded<T> = Good(value: T) | Bad(error: DecodeError)

  // ---------- Flags and ids ----------

  const FLAG_REMOTE: Byte := 1
  const FLAG_EXTENDED: Byte := 2
  const FLAG_EXPECT_ACK: Byte := 4

  /** `flags & flag != 0` for a single-bit flag. */
  predicate HasFlag(flags: Byte, flag: Byte)
    requires flag > 0
  {
    flags / flag % 2 == 1
  }

  function FrameFlags(f: Frame, expectAck: bool): Byte {
    (if f.remote then FLAG_REMOTE else 0) + (if f.id.Extended? then FLAG_EXTENDED else 0)
      + (if expectAck then FLAG_EXPECT_ACK else 0)
  }

  function IdRaw(id: CanId): U32 {
    match id
    case Standard(raw) => raw
    case Extended(raw) => raw
  }

  /** The id part of a decoder: `id_raw as u16` for a standard id. */
  function DecodeId(flags: Byte, raw: nat): Decoded<CanId> {
    if HasFlag(flags, FLAG_EXTENDED) then
      if raw < 0x2000_0000 then Good(Extended(raw)) else Bad(InvalidExtendedId)
    else if raw % 0x1_0000 < 0x800 then Good(Standard(raw % 0x1_0000)) else Bad(InvalidStandardId)
  }

  /** `decode_frame_from_parts`. */
  function DecodeParts(flags: Byte, raw: nat, dlc: Byte, data: seq<Byte>): Decoded<Frame> {
    match DecodeId(flags, raw)
    case Bad(e) => Bad(e)
    case Good(id) =>
      match FromParts(id, dlc, data, HasFlag(flags, FLAG_REMOTE))
      case None => Bad(InvalidFrame)
      case Some(f) => Good(f)
  }

  lemma DecodePartsInverse(f: Frame, expectAck: bool, data: seq<Byte>)
    requires f.dlc <= MAX_DATA_LEN
    ensures DecodeParts(FrameFlags(f, expectAck), IdRaw(f.id), f.dlc, data) == Good(f.(data := data))
    ensures HasFlag(FrameFlags(f, expectAck), FLAG_EXPECT_ACK) == expectAck
  {
  }

  // ---------- Frame payloads ----------

  function EncodeFrame(f: Frame): (p: seq<Byte>)
    requires ValidFrame(f)
    ensures |p| == FRAME_HDR_LEN + f.dlc
  {
    [FrameFlags(f, false)] + ToLE(IdRaw(f.id), 4) + [f.dlc] + f.data[..f.dlc]
  }

  /** The zero-filled data buffer of a decoder. */
  function Padded(d: seq<Byte>): seq<Byte>
    requires |d| <= MAX_DATA_LEN
  {
    d + Zeros(MAX_DATA_LEN - |d|)
  }

  function DecodeFrame(p: seq<Byte>): (r: Decoded<Frame>)
    ensures r.Good? ==> Clean(r.value) && |p| == FRAME_HDR_LEN + r.value.dlc
  {
    if |p| < FRAME_HDR_LEN then Bad(InvalidLength)
    else if p[5] > MAX_DATA_LEN then Bad(InvalidDlc)
    else if |p| != FRAME_HDR_LEN + p[5] then Bad(InvalidLength)
    else DecodeParts(p[0], FromLE(p[1..5]), p[5], Padded(p[6..]))
  }

  lemma CleanIsPadded(f: Frame)
    requires ValidFrame(f)
    ensures Padded(f.data[..f.dlc]) == f.data <==> Clean(f)
  {
    var q := Padded(f.data[..f.dlc]);
    if Clean(f) {
      assert forall i :: 0 <= i < MAX_DATA_LEN ==> q[i] == f.data[i];
    }
    if q == f.data {
      assert forall i :: f.dlc <= i < MAX_DATA_LEN ==> q[i] == 0;
    }
  }

  /** A frame survives encoding and decoding exactly if it is clean past its length. */
  lemma FrameRoundTrip(f: Frame)
    requires ValidFrame(f)
    ensures DecodeFrame(EncodeFrame(f)) == Good(f.(data := Padded(f.data[..f.dlc])))
    ensures DecodeFrame(EncodeFrame(f)) == Good(f) <==> Clean(f)
  {
    var p := EncodeFrame(f);
    Spans();
    RoundTrip(IdRaw(f.id), 4);
    assert p[1..5] == ToLE(IdRaw(f.id), 4) && p[6..] == f.data[..f.dlc];
    DecodePartsInverse(f, false, Padded(p[6..]));
    CleanIsPadded(f);
  }

  datatype SendFrame = SendFrame(seqNo: U64, expectAck: bool, frame: Frame)

  function EncodeSendFrame(s: SendFrame): (p: seq<Byte>)
    requires ValidFrame(s.frame)
    ensures |p| == SEND_FRAME_HDR_LEN + s.frame.dlc
  {
    ToLE(s.seqNo, 8) + [FrameFlags(s.frame, s.expectAck)] + ToLE(IdRaw(s.frame.id), 4) + [s.frame.dlc]
      + s.frame.data[..s.frame.dlc]
  }

  function DecodeSendFrame(p: seq<Byte>): (r: Decoded<SendFrame>)
    ensures r.Good? ==> Clean(r.value.frame)
  {
    if |p| < SEND_FRAME_HDR_LEN then Bad(InvalidLength)
    else if p[13] > MAX_DATA_LEN then Bad(InvalidDlc)
    else if |p| != SEND_FRAME_HDR_LEN + p[13] then Bad(InvalidLength)
    else
      match DecodeParts(p[8], FromLE(p[9..13]), p[13], Padded(p[14..]))
      case Bad(e) => Bad(e)
      case Good(f) =>
        assert Span(8) == 0x1_0000_0000_0000_0000 by { Spans(); }
        Good(SendFrame(FromLE(p[..8]), HasFlag(p[8], FLAG_EXPECT_ACK), f))
  }

  lemma SendFrameRoundTrip(s: SendFrame)
    requires ValidFrame(s.frame)
    ensures DecodeSendFrame(EncodeSendFrame(s)) == Good(s) <==> Clean(s.frame)
  {
    var p := EncodeSendFrame(s);
    Spans();
    RoundTrip(IdRaw(s.frame.id), 4);
    RoundTrip(s.seqNo, 8);
    assert p[..8] == ToLE(s.seqNo, 8) && p[9..13] == ToLE(IdRaw(s.frame.id), 4);
    assert p[14..] == s.frame.data[..s.frame.dlc];
    DecodePartsInverse(s.frame, s.expectAck, Padded(p[14..]));
    CleanIsPadded(s.frame);
  }

  // ---------- Acks ----------

  function EncodeAck(seqNo: U64, status: Byte): (p: seq<Byte>)
    ensures |p| == ACK_LEN
  {
    ToLE(seqNo, 8) + [status]
  }

  function DecodeAck(p: seq<Byte>): Decoded<(U64, Byte)> {
    if |p| != ACK_LEN then Bad(InvalidLength)
    else
      assert Span(8) == 0x1_0000_0000_0000_0000 by { Spans(); }
      Good((FromLE(p[..8]), p[8]))
  }

  lemma AckRoundTrip(seqNo: U64, status: Byte)
    ensures DecodeAck(EncodeAck(seqNo, status)) == Good((seqNo, status))
  {
    Spans();
    RoundTrip(seqNo, 8);
    assert EncodeAck(seqNo, status)[..8] == ToLE(seqNo, 8);
  }

  // ---------- Filters ----------

  predicate WidthMatched(f: Filter) { f.id.Standard? <==> f.mask.StdMask? }

  /** What is left of a filter on the wire: a mask of the other width becomes the all-zero mask. */
  function OnWire(f: Filter): Filter {
    if WidthMatched(f) then f
    else Filter(f.id, if f.id.Standard? then StdMask(0) else ExtMask(0))
  }

  function MaskRaw(m: IdMask): U32 {
    match m
    case StdMask(r) => r
    case ExtMask(r) => r
  }

  /** One nine-byte filter record. */
  function EncodeFilter(f: Filter): (p: seq<Byte>)
    ensures |p| == 9
  {
    [if f.id.Extended? then FLAG_EXTENDED else 0] + ToLE(IdRaw(f.id), 4) + ToLE(MaskRaw(OnWire(f).mask), 4)
  }

  function EncodeRecords(fs: seq<Filter>): (p: seq<Byte>)
    ensures |p| == 9 * |fs|
  {
    if fs == [] then [] else EncodeFilter(fs[0]) + EncodeRecords(fs[1..])
  }

  /** `encode_filters`: the count is truncated to 16 bits. */
  function EncodeFilters(seqNo: U64, fs: seq<Filter>): (p: seq<Byte>)
    ensures |p| == 10 + 9 * |fs|
  {
    ToLE(seqNo, 8) + ToLE(|fs| % 0x1_0000, 2) + EncodeRecords(fs)
  }

  function DecodeFilter(p: seq<Byte>): Decoded<Filter>
    requires |p| == 9
  {
    var mask := FromLE(p[5..9]);
    assert mask < 0x1_0000_0000 by { Spans(); }
    match DecodeId(p[0], FromLE(p[1..5]))
    case Bad(e) => Bad(e)
    case Good(Extended(x)) => Good(Filter(Extended(x), ExtMask(mask)))
    case Good(Standard(x)) => Good(Filter(Standard(x), StdMask(mask % 0x1_0000)))
  }

  function DecodeRecords(p: seq<Byte>): Decoded<seq<Filter>>
    requires |p| % 9 == 0
    decreases |p|
  {
    if p == [] then Good([])
    else
      match DecodeFilter(p[..9])
      case Bad(e) => Bad(e)
      case Good(f) =>
        match DecodeRecords(p[9..])
        case Bad(e) => Bad(e)
        case Good(fs) => Good([f] + fs)
  }

  function DecodeFilters(p: seq<Byte>): Decoded<(U64, seq<Filter>)> {
    if |p| < 10 then Bad(InvalidLength)
    else if |p| != 10 + FromLE(p[8..10]) * 9 then Bad(InvalidLength)
    else
      match DecodeRecords(p[10..])
      case Bad(e) => Bad(e)
      case Good(fs) =>
        assert Span(8) == 0x1_0000_0000_0000_0000 by { Spans(); }
        Good((FromLE(p[..8]), fs))
  }

  lemma FilterRecordInverse(f: Filter)
    ensures DecodeFilter(EncodeFilter(f)) == Good(OnWire(f))
  {
    var p := EncodeFilter(f);
    Spans();
    RoundTrip(IdRaw(f.id), 4);
    RoundTrip(MaskRaw(OnWire(f).mask), 4);
    assert p[1..5] == ToLE(IdRaw(f.id), 4) && p[5..9] == ToLE(MaskRaw(OnWire(f).mask), 4);
  }

  function AllOnWire(fs: seq<Filter>): (r: seq<Filter>)
    ensures |r| == |fs| && forall i :: 0 <= i < |fs| ==> r[i] == OnWire(fs[i])
  {
    if fs == [] then [] else [OnWire(fs[0])] + AllOnWire(fs[1..])
  }

  lemma {:induction false} RecordsInverse(fs: seq<Filter>)
    ensures DecodeRecords(EncodeRecords(fs)) == Good(AllOnWire(fs))
  {
    if fs != [] {
      var p := EncodeRecords(fs);
      FilterRecordInverse(fs[0]);
      RecordsInverse(fs[1..]);
      assert p[..9] == EncodeFilter(fs[0]) && p[9..] == EncodeRecords(fs[1..]);
    }
  }

  lemma Slices(a: seq<Byte>, b: seq<Byte>, c: seq<Byte>)
    ensures (a + b + c)[..|a|] == a && (a + b + c)[|a|..|a| + |b|] == b && (a + b + c)[|a| + |b|..] == c
  {
  }

  lemma {:induction false} FilterHeader(seqNo: U64, fs: seq<Filter>)
    ensures var p := EncodeFilters(seqNo, fs);
      && FromLE(p[..8]) == seqNo && FromLE(p[8..10]) == |fs| % 0x1_0000 && p[10..] == EncodeRecords(fs)
  {
    var count := |fs| % 0x1_0000;
    Slices(ToLE(seqNo, 8), ToLE(count, 2), EncodeRecords(fs));
    Spans();
    RoundTrip(seqNo, 8);
    RoundTrip(count, 2);
  }

  lemma {:induction false} FiltersInverse(seqNo: U64, fs: seq<Filter>)
    ensures |fs| < 0x1_0000 ==> DecodeFilters(EncodeFilters(seqNo, fs)) == Good((seqNo, AllOnWire(fs)))
    ensures |fs| >= 0x1_0000 ==> DecodeFilters(EncodeFilters(seqNo, fs)).Bad?
  {
    FilterHeader(seqNo, fs);
    RecordsInverse(fs);
  }

  lemma {:induction false} OnWireUnchanged(fs: seq<Filter>)
    ensures AllOnWire(fs) == fs <==> forall i :: 0 <= i < |fs| ==> WidthMatched(fs[i])
  {
    if AllOnWire(fs) == fs {
      forall i | 0 <= i < |fs|
        ensures WidthMatched(fs[i])
      {
        assert fs[i] == OnWire(fs[i]);
      }
    }
  }

  /** A filter list survives the wire exactly if it has fewer than 65536 entries and every id and mask
      agree in width; with mismatched widths the server gets the all-zero mask. */
  lemma {:induction false} FiltersRoundTrip(seqNo: U64, fs: seq<Filter>)
    ensures DecodeFilters(EncodeFilters(seqNo, fs)) == Good((seqNo, fs)) <==>
      |fs| < 0x1_0000 && forall i :: 0 <= i < |fs| ==> WidthMatched(fs[i])
  {
    FiltersInverse(seqNo, fs);
    OnWireUnchanged(fs);
  }

  /** Why that matters: a filter with mismatched widths accepts nothing, but after the wire it accepts
      every id of its width. */
  lemma MismatchedFilterChangesMeaning(f: Filter, id: CanId)
    requires !WidthMatched(f)
    ensures !FilterMatch(f, id)
    ensures FilterMatch(OnWire(f), id) <==> (id.Standard? <==> f.id.Standard?)
  {
  }

  // ---------- The encoders and the filter decoder as the source writes them ----------

  /** `out[at..at + |bytes|].copy_from_slice(bytes)`. */
  method CopyInto(out: array<Byte>, at: nat, bytes: seq<Byte>)
    requires at + |bytes| <= out.Length
    modifies out
    ensures out[..at] == old(out[..at]) && out[at..at + |bytes|] == bytes
    ensures out[at + |bytes|..] == old(out[at + |bytes|..])
  {
    for i := 0 to |bytes|
      invariant out[..at] == old(out[..at]) && out[at..at + i] == bytes[..i]
      invariant out[at + i..] == old(out[at + i..])
    {
      ghost var rest := out[at + i..];
      out[at + i] := bytes[i];
      assert out[at..at + i + 1] == out[at..at + i] + [bytes[i]];
      assert out[at + i + 1..] == rest[1..];
    }
  }

  method EncodeFrameInto(out: array<Byte>, f: Frame) returns (len: nat)
    requires out.Length == FRAME_HDR_LEN + MAX_DATA_LEN && ValidFrame(f)
    modifies out
    ensures len <= out.Length && out[..len] == EncodeFrame(f)
  {
    out[0] := FrameFlags(f, false);
    CopyInto(out, 1, ToLE(IdRaw(f.id), 4));
    ghost var head := out[..5];
    out[5] := f.dlc;
    CopyInto(out, 6, f.data[..f.dlc]);
    len := FRAME_HDR_LEN + f.dlc;
    assert out[..6][..5] == head;
    assert out[..len] == out[..6] + out[6..len];
    assert out[..6] == head + [f.dlc];
    assert head == [FrameFlags(f, false)] + ToLE(IdRaw(f.id), 4);
  }

  method EncodeAckInto(out: array<Byte>, seqNo: U64, status: Byte)
    requires out.Length == ACK_LEN
    modifies out
    ensures out[..] == EncodeAck(seqNo, status)
  {
    CopyInto(out, 0, ToLE(seqNo, 8));
    out[8] := status;
    assert out[..] == out[0..8] + [status];
  }

  method EncodeSendFrameInto(out: array<Byte>, s: SendFrame) returns (len: nat)
    requires out.Length == SEND_FRAME_HDR_LEN + MAX_DATA_LEN && ValidFrame(s.frame)
    modifies out
    ensures len <= out.Length && out[..len] == EncodeSendFrame(s)
  {
    CopyInto(out, 0, ToLE(s.seqNo, 8));
    out[8] := FrameFlags(s.frame, s.expectAck);
    ghost var h9 := out[..9];
    assert h9 == out[0..8] + [out[8]];
    CopyInto(out, 9, ToLE(IdRaw(s.frame.id), 4));
    ghost var h13 := out[..13];
    assert h13 == out[..9] + out[9..13];
    out[13] := s.frame.dlc;
    ghost var h14 := out[..14];
    assert h14 == h13 + [s.frame.dlc];
    CopyInto(out, 14, s.frame.data[..s.frame.dlc]);
    len := SEND_FRAME_HDR_LEN + s.frame.dlc;
    assert out[..len] == out[..14] + out[14..len];
  }

  /** One record of `encode_filters`. */
  method EncodeRecord(f: Filter) returns (record: seq<Byte>)
    ensures record == EncodeFilter(f)
  {
    var mask := match (f.id, f.mask)
      case (Standard(_), StdMask(m)) => m
      case (Extended(_), ExtMask(m)) => m
      case _ => 0;
    record := [if f.id.Extended? then FLAG_EXTENDED else 0];
    record := record + ToLE(IdRaw(f.id), 4);
    record := record + ToLE(mask, 4);
  }

  /** `encode_filters`. */
  method EncodeFiltersLoop(seqNo: U64, fs: seq<Filter>) returns (payload: seq<Byte>)
    ensures payload == EncodeFilters(seqNo, fs)
  {
    payload := ToLE(seqNo, 8) + ToLE(|fs| % 0x1_0000, 2);
    ghost var all := EncodeFilters(seqNo, fs);
    for i := 0 to |fs|
      invariant all == payload + EncodeRecords(fs[i..])
    {
      var record := EncodeRecord(fs[i]);
      assert fs[i..][1..] == fs[i + 1..];
      Associative(payload, record, EncodeRecords(fs[i + 1..]));
      payload := payload + record;
    }
  }

  /** `decode_filters`: the first bad record ends it. */
  method DecodeFiltersLoop(p: seq<Byte>) returns (r: Decoded<(U64, seq<Filter>)>)
    ensures r == DecodeFilters(p)
  {
    if |p| < 10 {
      return Bad(InvalidLength);
    }
    var count := FromLE(p[8..10]);
    if |p| != 10 + count * 9 {
      return Bad(InvalidLength);
    }
    Spans();
    var filters: seq<Filter> := [];
    var offset := 10;
    assert forall more: seq<Filter> :: [] + more == more;
    for k := 0 to count
      invariant offset == 10 + 9 * k
      invariant DecodeRecords(p[10..]) ==
        match DecodeRecords(p[offset..])
        case Bad(e) => Bad(e)
        case Good(more) => Good(filters + more)
    {
      ghost var rest := p[offset..];
      assert rest[..9] == p[offset..offset + 9] && rest[9..] == p[offset + 9..];
      var f := DecodeFilter(p[offset..offset + 9]);
      offset := offset + 9;
      if f.Bad? {
        return Bad(f.error);
      }
      assert forall more: seq<Filter> :: filters + ([f.value] + more) == filters + [f.value] + more;
      filters := filters + [f.value];
    }
    assert p[offset..] == [];
    assert filters + [] == filters;
    return Good((FromLE(p[..8]), filters));
  }
}
