/** Messages on a byte stream: a five-byte header and a payload, decoded one after the other. */
module Stream {
  import opened Basics
  import opened LittleEndian
  import opened CanTypes
  import opened Wire

  /** What the server sends, and what a client decodes; `Unknown` is a message type the client ignores. */
  datatype Msg =
    | FrameMsg(frame: Frame)
    | AckMsg(seqNo: U64, status: Byte)
    | FiltersAckMsg(seqNo: U64, status: Byte)
    | Hello
    | Unknown

  /** `write_msg`. */
  function Framed(msgType: Byte, payload: seq<Byte>): (b: seq<Byte>)
    requires |payload| < 0x1_0000_0000
    ensures |b| == 5 + |payload|
  {
    [msgType] + ToLE(|payload|, 4) + payload
  }

  datatype Head = Incomplete | TooLong | Whole(msgType: Byte, payload: seq<Byte>)

  /** The message at the front of a byte string, as both readers parse it. */
  function ReadHead(b: seq<Byte>): (h: Head)
    ensures h.Whole? ==> 5 + |h.payload| <= |b|
  {
    if |b| < 5 then Incomplete
    else
      var len := FromLE(b[1..5]);
      if len > MAX_PAYLOAD_LEN then TooLong
      else if |b| < 5 + len then Incomplete
      else Whole(b[0], b[5..5 + len])
  }

  lemma HeadStable(b: seq<Byte>, more: seq<Byte>)
    requires !ReadHead(b).Incomplete?
    ensures ReadHead(b + more) == ReadHead(b)
  {
    assert (b + more)[1..5] == b[1..5];
    if ReadHead(b).Whole? {
      var n := 5 + |ReadHead(b).payload|;
      assert (b + more)[5..n] == b[5..n];
    }
  }

  lemma HeadOfFramed(msgType: Byte, payload: seq<Byte>, more: seq<Byte>)
    requires |payload| <= MAX_PAYLOAD_LEN
    ensures ReadHead(Framed(msgType, payload) + more) == Whole(msgType, payload)
    ensures (Framed(msgType, payload) + more)[5 + |payload|..] == more
  {
    var b := Framed(msgType, payload) + more;
    assert FromLE(ToLE(|payload|, 4)) == |payload| by {
      Spans();
      RoundTrip(|payload|, 4);
    }
    assert b[1..5] == ToLE(|payload|, 4);
    assert b[5..5 + |payload|] == payload;
  }

  /** `next_decoded_msg`'s dispatch. */
  function DecodeMsg(msgType: Byte, payload: seq<Byte>): Decoded<Msg> {
    if msgType == MSG_FRAME then
      match DecodeFrame(payload)
      case Bad(e) => Bad(e)
      case Good(f) => Good(FrameMsg(f))
    else if msgType == MSG_ACK || msgType == MSG_FILTERS_ACK then
      match DecodeAck(payload)
      case Bad(e) => Bad(e)
      case Good((s, st)) => Good(if msgType == MSG_ACK then AckMsg(s, st) else FiltersAckMsg(s, st))
    else Good(if msgType == MSG_HELLO then Hello else Unknown)
  }

  /** Everything a client will decode from a byte string before it runs dry or meets a bad message. */
  function DecodeAll(b: seq<Byte>): seq<Msg>
    decreases |b|
  {
    var h := ReadHead(b);
    if !h.Whole? then []
    else
      match DecodeMsg(h.msgType, h.payload)
      case Bad(_) => []
      case Good(m) => [m] + DecodeAll(b[5 + |h.payload|..])
  }

  /** Taking one whole message off the buffer takes one message off what is to come. */
  lemma TakeOne(b: seq<Byte>, more: seq<Byte>)
    requires ReadHead(b).Whole? && DecodeMsg(ReadHead(b).msgType, ReadHead(b).payload).Good?
    ensures var n := 5 + |ReadHead(b).payload|;
      DecodeAll(b + more) == [DecodeMsg(ReadHead(b).msgType, ReadHead(b).payload).value] + DecodeAll(b[n..] + more)
  {
    var n := 5 + |ReadHead(b).payload|;
    HeadStable(b, more);
    assert (b + more)[n..] == b[n..] + more;
  }

  /** A front that will not decode keeps everything behind it from being decoded. */
  lemma StuckFront(b: seq<Byte>, more: seq<Byte>)
    requires var h := ReadHead(b); h.TooLong? || (h.Whole? && DecodeMsg(h.msgType, h.payload).Bad?)
    ensures DecodeAll(b + more) == []
  {
    HeadStable(b, more);
  }

  /** A message the server can send: frames are valid, and nothing is `Unknown`. */
  predicate Sendable(m: Msg) { !m.Unknown? && (m.FrameMsg? ==> Clean(m.frame)) }

  function MsgType(m: Msg): Byte {
    match m
    case FrameMsg(_) => MSG_FRAME
    case AckMsg(_, _) => MSG_ACK
    case FiltersAckMsg(_, _) => MSG_FILTERS_ACK
    case Hello => MSG_HELLO
    case Unknown => 0
  }

  function Payload(m: Msg): (p: seq<Byte>)
    requires Sendable(m)
    ensures |p| <= MAX_PAYLOAD_LEN
  {
    match m
    case FrameMsg(f) => EncodeFrame(f)
    case AckMsg(s, st) => EncodeAck(s, st)
    case FiltersAckMsg(s, st) => EncodeAck(s, st)
    case Hello => []
  }

  /** `client_writer_loop`: the bytes that a sequence of messages puts on the stream. */
  function EncodeStream(msgs: seq<Msg>): seq<Byte>
    requires forall i :: 0 <= i < |msgs| ==> Sendable(msgs[i])
  {
    if msgs == [] then [] else Framed(MsgType(msgs[0]), Payload(msgs[0])) + EncodeStream(msgs[1..])
  }

  lemma PayloadInverse(m: Msg)
    requires Sendable(m)
    ensures DecodeMsg(MsgType(m), Payload(m)) == Good(m)
  {
    match m
    case FrameMsg(f) => FrameRoundTrip(f);
    case AckMsg(s, st) => AckRoundTrip(s, st);
    case FiltersAckMsg(s, st) => AckRoundTrip(s, st);
    case Hello =>
  }

  lemma OneRoundTrip(m: Msg, more: seq<Byte>)
    requires Sendable(m)
    ensures DecodeAll(Framed(MsgType(m), Payload(m)) + more) == [m] + DecodeAll(more)
  {
    PayloadInverse(m);
    HeadOfFramed(MsgType(m), Payload(m), more);
  }

  lemma {:induction false} StreamSplits(msgs: seq<Msg>, more: seq<Byte>)
    requires msgs != [] && forall i :: 0 <= i < |msgs| ==> Sendable(msgs[i])
    ensures EncodeStream(msgs) + more
         == Framed(MsgType(msgs[0]), Payload(msgs[0])) + (EncodeStream(msgs[1..]) + more)
  {
    Associative(Framed(MsgType(msgs[0]), Payload(msgs[0])), EncodeStream(msgs[1..]), more);
  }

  /** Any sequence of server messages, written to the stream and followed by anything, decodes to itself
      and then to what follows. */
  lemma {:induction false} StreamRoundTrip(msgs: seq<Msg>, more: seq<Byte>)
    requires forall i :: 0 <= i < |msgs| ==> Sendable(msgs[i])
    ensures DecodeAll(EncodeStream(msgs) + more) == msgs + DecodeAll(more)
  {
    if msgs == [] {
      assert [] + more == more && [] + DecodeAll(more) == DecodeAll(more);
    } else {
      ghost var rest := msgs[1..];
      StreamSplits(msgs, more);
      OneRoundTrip(msgs[0], EncodeStream(rest) + more);
      StreamRoundTrip(rest, more);
      Associative([msgs[0]], rest, DecodeAll(more));
      assert [msgs[0]] + rest == msgs;
    }
  }

  /** A prefix of the stream never decodes to anything the whole does not start with. */
  lemma {:induction false} PrefixDecodesToPrefix(b: seq<Byte>, more: seq<Byte>)
    ensures DecodeAll(b) <= DecodeAll(b + more)
    decreases |b|
  {
    var h := ReadHead(b);
    if h.Whole? && DecodeMsg(h.msgType, h.payload).Good? {
      TakeOne(b, more);
      PrefixDecodesToPrefix(b[5 + |h.payload|..], more);
    }
  }

  /** A message of a type the client does not know is passed over. */
  lemma UnknownSkipped(msgType: Byte, payload: seq<Byte>, more: seq<Byte>)
    requires msgType !in {MSG_FRAME, MSG_ACK, MSG_FILTERS_ACK, MSG_HELLO} && |payload| <= MAX_PAYLOAD_LEN
    ensures DecodeAll(Framed(msgType, payload) + more) == [Unknown] + DecodeAll(more)
  {
    HeadOfFramed(msgType, payload, more);
  }

  function FramesOf(msgs: seq<Msg>): seq<Frame> {
    if msgs == [] then []
    else (if msgs[0].FrameMsg? then [msgs[0].frame] else []) + FramesOf(msgs[1..])
  }

  lemma {:induction false} FramesOfConcat(a: seq<Msg>, b: seq<Msg>)
    ensures FramesOf(a + b) == FramesOf(a) + FramesOf(b)
    decreases |a|
  {
    if a == [] {
      assert a + b == b;
    } else {
      FramesOfConcat(a[1..], b);
      assert (a + b)[1..] == a[1..] + b;
      Associative(if a[0].FrameMsg? then [a[0].frame] else [], FramesOf(a[1..]), FramesOf(b));
    }
  }
}
