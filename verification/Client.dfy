/** `UnixCan`: the reassembly buffer with compaction, the receive queue, and the calls, each proved to do what its
    function in `ClientSpec` says. */
module Client {
  import opened Basics
  import opened LittleEndian
  import opened CanTypes
  import opened Wire
  import opened Stream
  import opened Requests
  import opened ClientSpec

  /** Where a whole message lies in the buffer. */
  lemma HeadInBuffer(b: seq<Byte>, off: nat, len: nat)
    requires off + 5 + len <= |b| && len == FromLE(b[off + 1..off + 5]) && len <= MAX_PAYLOAD_LEN
    ensures ReadHead(b[off..]) == Whole(b[off], b[off + 5..off + 5 + len])
    ensures b[off..][5 + len..] == b[off + 5 + len..]
  {
    assert b[off..][1..5] == b[off + 1..off + 5];
    assert b[off..][5..5 + len] == b[off + 5..off + 5 + len];
  }

  class UnixCan {
    var rxBytes: seq<Byte>
    var rxOff: nat
    var rxQueue: seq<Frame>
    var nextSeq: U64
    var filters: seq<Filter>
    var incoming: seq<ReadEvent>
    var writes: seq<WriteEvent>
    var written: seq<Byte>

    ghost predicate Valid()
      reads this
    {
      rxOff <= |rxBytes|
    }

    /** The connection that the fields stand for. */
    ghost function Now(): Conn
      requires Valid()
      reads this
    {
      Conn(rxBytes[rxOff..], rxQueue, nextSeq, filters, incoming, writes, written)
    }

    constructor (incoming: seq<ReadEvent>, writes: seq<WriteEvent>)
      ensures Valid() && Now() == NewConn(incoming, writes)
    {
      rxBytes, rxOff, rxQueue, nextSeq, filters := [], 0, [], 1, [];
      this.incoming, this.writes, written := incoming, writes, [];
    }

    /** `read_more_once`. */
    method ReadMoreOnce() returns (r: Res<bool>, poll: Poll)
      requires Valid()
      modifies this`rxBytes, this`incoming
      ensures Valid() && (Now(), r, poll) == ReadMore(old(Now()))
    {
      poll := Ready;
      if incoming == [] {
        return Blocked, poll;
      }
      var e := incoming[0];
      incoming := incoming[1..];
      match e {
        case Data(bytes) =>
          assert (rxBytes + bytes)[rxOff..] == rxBytes[rxOff..] + bytes;
          rxBytes := rxBytes + bytes;
          r := if bytes == [] then Err(Disconnected) else Ok(true);
        case WouldBlock(p) => r, poll := Ok(false), p;
        case ReadFailed => r := Err(IoError);
      }
    }

    /** `next_decoded_msg`: take the first whole message off the buffer, compacting it now and then. A bad message
        stays where it is. */
    method NextDecodedMsg() returns (r: Res<Option<Msg>>)
      requires Valid()
      modifies this`rxBytes, this`rxOff
      ensures Valid() && (Now(), r) == NextMsg(old(Now()))
    {
      var avail := |rxBytes| - rxOff;
      if avail < 5 {
        return Ok(None);
      }
      var base := rxOff;
      var len := FromLE(rxBytes[base + 1..base + 5]);
      assert rxBytes[base..][1..5] == rxBytes[base + 1..base + 5];
      if len > MAX_PAYLOAD_LEN {
        return Err(ProtocolError);
      }
      var total := 5 + len;
      if avail < total {
        return Ok(None);
      }
      HeadInBuffer(rxBytes, base, len);
      var m := DecodeMsg(rxBytes[base], rxBytes[base + 5..base + total]);
      if m.Bad? {
        return Err(ProtocolError);
      }
      rxOff := rxOff + total;
      if rxOff >= 4096 && rxOff >= |rxBytes| / 2 {
        rxBytes := rxBytes[rxOff..];
        rxOff := 0;
      }
      return Ok(Some(m.value));
    }

    /** `recv_decoded_msg_blocking`. */
    method RecvDecodedMsg() returns (r: Res<Msg>)
      requires Valid()
      modifies this`rxBytes, this`rxOff, this`incoming
      ensures Valid() && (Now(), r) == RecvMsg(old(Now()))
    {
      while true
        invariant Valid() && RecvMsg(Now()) == RecvMsg(old(Now()))
        decreases |incoming|
      {
        var m := NextDecodedMsg();
        if m.Err? {
          return Err(m.error);
        }
        if m.value.Some? {
          return Ok(m.value.value);
        }
        var got, poll := ReadMoreOnce();
        if !got.Ok? {
          return if got.Blocked? then Blocked else Err(got.error);
        }
        if !got.value && poll != Ready {
          return Err(PollError(poll));
        }
      }
    }

    /** `next_seq`. */
    method NextSeq() returns (s: U64)
      requires Valid()
      modifies this`nextSeq
      ensures s == old(nextSeq) && Valid() && Now() == Numbered(old(Now()))
    {
      s := nextSeq;
      nextSeq := (nextSeq + 1) % 0x1_0000_0000_0000_0000;
    }

    /** `write_all_deadline`. */
    method WriteAll(bytes: seq<Byte>) returns (r: Res<()>)
      requires Valid()
      modifies this`writes, this`written
      ensures Valid() && (Now(), r) == Write(old(Now()), bytes)
    {
      var rest := bytes;
      while rest != []
        invariant Valid() && Write(Now(), rest) == Write(old(Now()), bytes)
        decreases |writes|
      {
        if writes == [] {
          return Blocked;
        }
        var e := writes[0];
        writes := writes[1..];
        match e {
          case Took(n) =>
            if n == 0 {
              return Err(Disconnected);
            }
            var k := Min(n, |rest|);
            written := written + rest[..k];
            rest := rest[k..];
          case WriteBlocked(poll) =>
            if poll != Ready {
              return Err(PollError(poll));
            }
          case Interrupted =>
          case WriteFailed => return Err(IoError);
        }
      }
      return Ok(());
    }

    /** `write_msg_deadline`. */
    method WriteMessage(msgType: Byte, payload: seq<Byte>) returns (r: Res<()>)
      requires Valid()
      modifies this`writes, this`written
      ensures Valid() && (Now(), r) == WriteMsg(old(Now()), msgType, payload)
    {
      if |payload| >= 0x1_0000_0000 {
        return Err(ProtocolError);
      }
      r := WriteAll([msgType] + ToLE(|payload|, 4));
      if r.Ok? {
        r := WriteAll(payload);
      }
    }

    /** `wait_for_hello`, `wait_for_ack` and `wait_for_filters_ack`. */
    method WaitFor(w: Awaited) returns (r: Res<()>)
      requires Valid()
      modifies this`rxBytes, this`rxOff, this`incoming, this`rxQueue
      ensures Valid() && Now() == Wait(old(Now()), w).conn && r == Wait(old(Now()), w).res
    {
      ghost var end := Wait(Now(), w);
      while true
        invariant Valid() && Wait(Now(), w).conn == end.conn && Wait(Now(), w).res == end.res
        decreases |Now().bytes| + |StreamOf(incoming)|
      {
        RecvMsgShrinks(Now());
        var m := RecvDecodedMsg();
        if !m.Ok? {
          return if m.Blocked? then Blocked else Err(m.error);
        }
        if m.value.FrameMsg? {
          rxQueue := rxQueue + [m.value.frame];
        }
        if Answers(m.value, w) {
          return Verdict(m.value);
        }
      }
    }

    /** Write an encoded request, then wait for its answer. */
    method WriteAndWait(payload: seq<Byte>, w: Awaited, q: Request) returns (r: Res<()>)
      requires Valid() && (q.Transmit? ==> Clean(q.send.frame)) && payload == Encoded(q)
      modifies this`writes, this`written, this`rxBytes, this`rxOff, this`incoming, this`rxQueue
      ensures Valid() && Now() == Ask(old(Now()), q, Some(w)).conn && r == Ask(old(Now()), q, Some(w)).res
    {
      r := WriteMessage(RequestType(q), payload);
      if r.Ok? {
        r := WaitFor(w);
      }
    }

    /** `send` (and `send_timeout`, whose deadline is part of the socket events). */
    method Send(frame: Frame) returns (r: Res<()>)
      requires Valid() && Clean(frame)
      modifies this
      ensures Valid() && Now() == Call(old(Now()), DoSend(frame)).conn
      ensures Written(r) == Call(old(Now()), DoSend(frame)).res
    {
      var s := NextSeq();
      var buf := new Byte[SEND_FRAME_HDR_LEN + MAX_DATA_LEN];
      var len := EncodeSendFrameInto(buf, SendFrame(s, true, frame));
      r := WriteAndWait(buf[..len], FrameAck(s), Transmit(SendFrame(s, true, frame)));
    }

    /** `try_send`. */
    method TrySend(frame: Frame) returns (r: Res<()>)
      requires Valid() && Clean(frame)
      modifies this
      ensures Valid() && Now() == Call(old(Now()), DoTrySend(frame)).conn
      ensures Written(r) == Call(old(Now()), DoTrySend(frame)).res
    {
      var s := NextSeq();
      var buf := new Byte[SEND_FRAME_HDR_LEN + MAX_DATA_LEN];
      var len := EncodeSendFrameInto(buf, SendFrame(s, false, frame));
      r := WriteMessage(MSG_SEND_FRAME, buf[..len]);
    }

    /** `set_filters`: the local copy changes whatever happens. */
    method SetFilters(fs: seq<Filter>) returns (r: Res<()>)
      requires Valid()
      modifies this
      ensures Valid() && Now() == Call(old(Now()), DoSetFilters(fs)).conn
      ensures Written(r) == Call(old(Now()), DoSetFilters(fs)).res
    {
      ghost var c := Now();
      filters := fs;
      var s := NextSeq();
      assert Now() == Prepared(c, DoSetFilters(fs));
      var payload := EncodeFiltersLoop(s, filters);
      r := WriteAndWait(payload, FilterAck(s), Filtering(s, fs));
    }

    /** `recv` (and `recv_timeout`). */
    method RecvFrame() returns (r: Res<Frame>)
      requires Valid()
      modifies this`rxBytes, this`rxOff, this`incoming, this`rxQueue
      ensures Valid() && Now() == Recv(old(Now())).0 && r == Recv(old(Now())).1
    {
      if rxQueue != [] {
        r := Ok(rxQueue[0]);
        rxQueue := rxQueue[1..];
        return;
      }
      ghost var end := NextFrame(Now());
      while true
        invariant Valid() && NextFrame(Now()).0 == end.0 && NextFrame(Now()).1 == end.1
        decreases |Now().bytes| + |StreamOf(incoming)|
      {
        RecvMsgShrinks(Now());
        var m := RecvDecodedMsg();
        if !m.Ok? {
          return if m.Blocked? then Blocked else Err(m.error);
        }
        if m.value.FrameMsg? {
          return Ok(m.value.frame);
        }
      }
    }

    /** The parse loop of `try_recv`. */
    method DrainBuffer() returns (r: Res<Frame>)
      requires Valid()
      modifies this`rxBytes, this`rxOff
      ensures Valid() && Now() == Drain(old(Now())).0 && r == Drain(old(Now())).1
    {
      ghost var end := Drain(Now());
      while true
        invariant Valid() && Drain(Now()).0 == end.0 && Drain(Now()).1 == end.1
        decreases |Now().bytes|
      {
        var m := NextDecodedMsg();
        if m.Err? {
          return Err(m.error);
        }
        if m.value.None? {
          return Err(WouldBlockError);
        }
        if m.value.value.FrameMsg? {
          return Ok(m.value.value.frame);
        }
      }
    }

    /** `try_recv`. */
    method TryRecvFrame() returns (r: Res<Frame>)
      requires Valid()
      modifies this`rxBytes, this`rxOff, this`incoming, this`rxQueue
      ensures Valid() && Now() == TryRecv(old(Now())).0 && r == TryRecv(old(Now())).1
    {
      if rxQueue != [] {
        r := Ok(rxQueue[0]);
        rxQueue := rxQueue[1..];
        return;
      }
      var got, _ := ReadMoreOnce();
      if !got.Ok? {
        return if got.Blocked? then Blocked else Err(got.error);
      }
      r := DrainBuffer();
    }
  }

  /** One call of the application. */
  method Perform(c: UnixCan, op: Op) returns (res: OpResult)
    requires c.Valid() && Callable(op)
    modifies c
    ensures c.Valid() && c.Now() == Call(old(c.Now()), op).conn && res == Call(old(c.Now()), op).res
  {
    match op {
      case DoSend(f) =>
        var r := c.Send(f);
        res := Written(r);
      case DoTrySend(f) =>
        var r := c.TrySend(f);
        res := Written(r);
      case DoSetFilters(fs) =>
        var r := c.SetFilters(fs);
        res := Written(r);
      case DoRecv =>
        var f := c.RecvFrame();
        res := Read(f);
      case DoTryRecv =>
        var f := c.TryRecvFrame();
        res := Read(f);
    }
  }
}
