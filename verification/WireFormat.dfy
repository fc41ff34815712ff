/** Which byte strings the decoders take, and what they read from which byte. */
module WireFormat {
  import opened Basics
  import opened LittleEndian
  import opened CanTypes
  import opened Wire

  /** Flag bit 0 is the remote flag, bit 1 the extended flag, bit 2 asks for an ack. */
  lemma FlagBits(flags: Byte)
    ensures HasFlag(flags, FLAG_REMOTE) <==> Bit(flags, 0) == 1
    ensures HasFlag(flags, FLAG_EXTENDED) <==> Bit(flags, 1) == 1
    ensures HasFlag(flags, FLAG_EXPECT_ACK) <==> Bit(flags, 2) == 1
  {
    assert Bit(flags, 1) == Bit(flags / 2, 0);
    assert Bit(flags, 2) == Bit(flags / 2, 1) == Bit(flags / 2 / 2, 0);
  }

  /** 29 bits for an extended id; a standard id is cut to 16 bits, of which 11 may be used. */
  predicate IdFits(flags: Byte, raw: nat) {
    if Bit(flags, 1) == 1 then raw < 0x2000_0000 else raw % 0x1_0000 < 0x800
  }

  function IdOf(flags: Byte, raw: nat): CanId
    requires IdFits(flags, raw)
  {
    if Bit(flags, 1) == 1 then Extended(raw) else Standard(raw % 0x1_0000)
  }

  /** A frame from `at` on: flags, four bytes of id, a length of at most 64 and that many bytes. */
  predicate HoldsFrame(p: seq<Byte>, at: nat) {
    at + 6 <= |p| && p[at + 5] <= 64 && |p| == at + 6 + p[at + 5] && IdFits(p[at], FromLE(p[at + 1..at + 5]))
  }

  predicate IsFrameAt(p: seq<Byte>, at: nat, f: Frame)
    requires HoldsFrame(p, at)
  {
    && f.id == IdOf(p[at], FromLE(p[at + 1..at + 5])) && f.dlc == p[at + 5] && (f.remote <==> Bit(p[at], 0) == 1)
    && Clean(f) && f.data[..f.dlc] == p[at + 6..]
  }

  lemma PartsRead(flags: Byte, raw: nat, dlc: Byte, data: seq<Byte>)
    requires dlc <= 64
    ensures DecodeParts(flags, raw, dlc, data).Good? <==> IdFits(flags, raw)
    ensures IdFits(flags, raw) ==>
      DecodeParts(flags, raw, dlc, data).value == Frame(IdOf(flags, raw), data, dlc, Bit(flags, 0) == 1)
  {
    FlagBits(flags);
  }

  /** `decode_frame` takes exactly these byte strings. */
  lemma FrameDecodesIff(p: seq<Byte>)
    ensures DecodeFrame(p).Good? <==> HoldsFrame(p, 0)
    ensures HoldsFrame(p, 0) ==> IsFrameAt(p, 0, DecodeFrame(p).value)
  {
    if |p| >= 6 && p[5] <= 64 && |p| == 6 + p[5] {
      PartsRead(p[0], FromLE(p[1..5]), p[5], Padded(p[6..]));
      assert Padded(p[6..])[..p[5]] == p[6..];
    }
  }

  /** `decode_send_frame`: eight bytes of sequence number, then the frame, whose flags also ask for the ack. */
  lemma SendFrameDecodesIff(p: seq<Byte>)
    ensures DecodeSendFrame(p).Good? <==> HoldsFrame(p, 8)
    ensures HoldsFrame(p, 8) ==>
      var s := DecodeSendFrame(p).value;
      s.seqNo == FromLE(p[..8]) && (s.expectAck <==> Bit(p[8], 2) == 1) && IsFrameAt(p, 8, s.frame)
  {
    if |p| >= 14 && p[13] <= 64 && |p| == 14 + p[13] {
      PartsRead(p[8], FromLE(p[9..13]), p[13], Padded(p[14..]));
      FlagBits(p[8]);
      assert Padded(p[14..])[..p[13]] == p[14..];
    }
  }

  /** A nine-byte record: flags, id and mask. */
  predicate HoldsFilter(r: seq<Byte>) { |r| == 9 && IdFits(r[0], FromLE(r[1..5])) }

  predicate IsFilter(r: seq<Byte>, f: Filter)
    requires HoldsFilter(r)
  {
    && f.id == IdOf(r[0], FromLE(r[1..5]))
    && if Bit(r[0], 1) == 1 then f.mask.ExtMask? && f.mask.m32 == FromLE(r[5..9])
       else f.mask.StdMask? && f.mask.m16 == FromLE(r[5..9]) % 0x1_0000
  }

  lemma FilterRead(r: seq<Byte>)
    requires |r| == 9
    ensures DecodeFilter(r).Good? <==> HoldsFilter(r)
    ensures HoldsFilter(r) ==> IsFilter(r, DecodeFilter(r).value)
  {
    FlagBits(r[0]);
  }

  function Record(p: seq<Byte>, i: nat): seq<Byte>
    requires 9 * i + 9 <= |p|
  {
    p[9 * i..9 * i + 9]
  }

  predicate AllFilters(p: seq<Byte>, n: nat)
    requires |p| == 9 * n
  {
    forall i :: 0 <= i < n ==> HoldsFilter(Record(p, i))
  }

  predicate AreFilters(p: seq<Byte>, n: nat, fs: seq<Filter>)
    requires |p| == 9 * n && AllFilters(p, n)
  {
    |fs| == n && forall i :: 0 <= i < n ==> IsFilter(Record(p, i), fs[i])
  }

  lemma LaterRecord(p: seq<Byte>, i: nat)
    requires 9 * i + 18 <= |p|
    ensures Record(p[9..], i) == Record(p, i + 1)
  {
    var a := 9 * i;
    assert p[9..][a..a + 9] == p[a + 9..a + 18];
  }

  lemma LaterRecords(p: seq<Byte>, n: nat)
    requires n > 0 && |p| == 9 * n
    ensures forall i :: 0 <= i < n - 1 ==> Record(p[9..], i) == Record(p, i + 1)
    ensures AllFilters(p, n) <==> HoldsFilter(p[..9]) && AllFilters(p[9..], n - 1)
  {
    forall i | 0 <= i < n - 1
      ensures Record(p[9..], i) == Record(p, i + 1)
    {
      LaterRecord(p, i);
    }
    assert Record(p, 0) == p[..9];
    if HoldsFilter(p[..9]) && AllFilters(p[9..], n - 1) {
      forall i | 0 <= i < n
        ensures HoldsFilter(Record(p, i))
      {
        assert i > 0 ==> Record(p, i) == Record(p[9..], i - 1);
      }
    }
  }

  lemma {:induction false} RecordsRead(p: seq<Byte>, n: nat)
    requires |p| == 9 * n
    ensures |p| % 9 == 0
    ensures DecodeRecords(p).Good? <==> AllFilters(p, n)
    ensures AllFilters(p, n) ==> AreFilters(p, n, DecodeRecords(p).value)
    decreases n
  {
    if n > 0 {
      FilterRead(p[..9]);
      LaterRecords(p, n);
      RecordsRead(p[9..], n - 1);
      assert Record(p, 0) == p[..9];
      if AllFilters(p, n) {
        var fs := DecodeRecords(p).value;
        forall i | 0 <= i < n
          ensures IsFilter(Record(p, i), fs[i])
        {
          assert i > 0 ==> Record(p, i) == Record(p[9..], i - 1) && fs[i] == DecodeRecords(p[9..]).value[i - 1];
        }
      }
    }
  }

  /** `decode_filters` takes exactly eight bytes of number, two of count, and that many records whose ids fit. */
  lemma FiltersDecodeIff(p: seq<Byte>, n: nat)
    requires |p| >= 10 && n == FromLE(p[8..10])
    ensures DecodeFilters(p).Good? <==> |p| == 10 + 9 * n && AllFilters(p[10..], n)
    ensures DecodeFilters(p).Good? ==>
      DecodeFilters(p).value.0 == FromLE(p[..8]) && AreFilters(p[10..], n, DecodeFilters(p).value.1)
  {
    if |p| == 10 + 9 * n {
      RecordsRead(p[10..], n);
    }
  }
}
