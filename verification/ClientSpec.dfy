/** The client end of the simulated bus as functions of the socket's events: what each call returns, what it reads and
    writes, and what it leaves behind. */
module ClientSpec {
  import opened Basics
  import opened LittleEndian
  import opened CanTypes
  import opened Wire
  import opened Stream
  import opened Requests

  datatype Poll = Ready | TimedOut | PollFailed

  /** What the next read of the socket yields; no bytes mean end of file, and a would-block read carries what polling
      then says. */
  datatype ReadEvent = Data(bytes: seq<Byte>) | WouldBlock(poll: Poll) | ReadFailed

  /** What the next write of the socket does: how many bytes it takes, or why it does not. */
  datatype WriteEvent = Took(n: nat) | WriteBlocked(poll: Poll) | Interrupted | WriteFailed

  datatype ClientError = IoError | ProtocolError | TimeoutError | WouldBlockError | Disconnected | NoAck

  /** `Blocked`: the call is still waiting when the modelled socket events run out. */
  datatype Res<+T> = Ok(value: T) | Err(error: ClientError) | Blocked

  function StreamOf(events: seq<ReadEvent>): seq<Byte> {
    if events == [] then []
    else (if events[0].Data? then events[0].bytes else []) + StreamOf(events[1..])
  }

  /** A connection: bytes read and not parsed, the receive queue, the next number, the filters, the socket's future
      reads and writes, and every byte handed to it so far. */
  datatype Conn = Conn(
    bytes: seq<Byte>, queue: seq<Frame>, next: U64, filters: seq<Filter>,
    incoming: seq<ReadEvent>, writes: seq<WriteEvent>, written: seq<Byte>)

  /** Every message that is still to be decoded, from the buffer and from the socket. */
  function Upcoming(c: Conn): seq<Msg> { DecodeAll(c.bytes + StreamOf(c.incoming)) }

  /** Every frame not yet handed to the application, in bus order. */
  function Pending(c: Conn): seq<Frame> { c.queue + FramesOf(Upcoming(c)) }

  // ---------- Reading ----------

  /** `next_decoded_msg`: the first whole message of the buffer. */
  function NextMsg(c: Conn): (Conn, Res<Option<Msg>>) {
    var h := ReadHead(c.bytes);
    if h.TooLong? then (c, Err(ProtocolError))
    else if h.Incomplete? then (c, Ok(None))
    else
      match DecodeMsg(h.msgType, h.payload)
      case Bad(_) => (c, Err(ProtocolError))
      case Good(m) => (c.(bytes := c.bytes[5 + |h.payload|..]), Ok(Some(m)))
  }

  /** `read_more_once`: whether bytes arrived; without bytes, what polling says. */
  function ReadMore(c: Conn): (Conn, Res<bool>, Poll) {
    if c.incoming == [] then (c, Blocked, Ready)
    else
      var d := c.(incoming := c.incoming[1..]);
      match c.incoming[0]
      case Data(b) => (d.(bytes := d.bytes + b), if b == [] then Err(Disconnected) else Ok(true), Ready)
      case WouldBlock(p) => (d, Ok(false), p)
      case ReadFailed => (d, Err(IoError), Ready)
  }

  function PollError(p: Poll): ClientError { if p == TimedOut then TimeoutError else IoError }

  function Failed<S, T>(r: Res<S>): Res<T>
    requires !r.Ok?
  {
    if r.Blocked? then Blocked else Err(r.error)
  }

  /** Only the bytes and the reads of the socket differ, and those are only used up. */
  predicate SameButReads(c: Conn, d: Conn) {
    d == c.(bytes := d.bytes, incoming := d.incoming) && |d.incoming| <= |c.incoming|
  }

  /** `recv_decoded_msg_blocking`. */
  function RecvMsg(c: Conn): (o: (Conn, Res<Msg>))
    ensures SameButReads(c, o.0)
    ensures o.1.Ok? ==> |o.0.incoming| < |c.incoming| || |o.0.bytes| < |c.bytes|
    decreases |c.incoming|
  {
    var (d, m) := NextMsg(c);
    if m.Err? then (d, Err(m.error))
    else if m.value.Some? then (d, Ok(m.value.value))
    else
      var (e, got, poll) := ReadMore(c);
      if !got.Ok? then (e, Failed(got))
      else if !got.value && poll != Ready then (e, Err(PollError(poll)))
      else RecvMsg(e)
  }

  /** What a call waits for: the greeting, or the ack of a frame or of a filter list by sequence number. */
  datatype Awaited = Greeting | FrameAck(seqNo: U64) | FilterAck(seqNo: U64)

  predicate Answers(m: Msg, w: Awaited) {
    match w
    case Greeting => m.Hello?
    case FrameAck(s) => m.AckMsg? && m.seqNo == s
    case FilterAck(s) => m.FiltersAckMsg? && m.seqNo == s
  }

  /** What a call makes of the message it waited for. */
  function Verdict(m: Msg): Res<()> {
    match m
    case AckMsg(_, status) =>
      if status == ACK_OK then Ok(()) else Err(if status == ACK_NO_ACK then NoAck else ProtocolError)
    case FiltersAckMsg(_, status) => if status == ACK_OK then Ok(()) else Err(ProtocolError)
    case _ => Ok(())
  }

  function Store(c: Conn, m: Msg): Conn { if m.FrameMsg? then c.(queue := c.queue + [m.frame]) else c }

  datatype Waited = Waited(conn: Conn, res: Res<()>, seen: seq<Msg>)

  /** `wait_for_hello`, `wait_for_ack` and `wait_for_filters_ack`: frames that arrive meanwhile are queued, everything
      else that is no answer is dropped; `seen` are the messages read. */
  function Wait(c: Conn, w: Awaited): (o: Waited)
    ensures SameButReads(c.(queue := o.conn.queue), o.conn)
    decreases |c.incoming| + |c.bytes| + |StreamOf(c.incoming)|
  {
    var (d, m) := RecvMsg(c);
    if !m.Ok? then Waited(d, Failed(m), [])
    else
      var e := Store(d, m.value);
      if Answers(m.value, w) then Waited(e, Verdict(m.value), [m.value])
      else
        assert |e.incoming| + |e.bytes| + |StreamOf(e.incoming)|
             < |c.incoming| + |c.bytes| + |StreamOf(c.incoming)| by {
          RecvMsgShrinks(c);
        }
        var rest := Wait(e, w);
        rest.(seen := [m.value] + rest.seen)
  }

  /** A message taken off leaves fewer bytes to come. */
  lemma {:induction false} RecvMsgShrinks(c: Conn)
    ensures var (d, m) := RecvMsg(c);
      m.Ok? ==> |d.bytes| + |StreamOf(d.incoming)| < |c.bytes| + |StreamOf(c.incoming)|
    decreases |c.incoming|
  {
    if NextMsg(c).1 == Ok(None) && c.incoming != [] {
      RecvMsgShrinks(ReadMore(c).0);
    }
  }

  /** The blocking receive loop of `recv`: the next frame, other messages are dropped. */
  function NextFrame(c: Conn): (o: (Conn, Res<Frame>, seq<Msg>))
    ensures SameButReads(c, o.0)
    decreases |c.incoming| + |c.bytes| + |StreamOf(c.incoming)|
  {
    var (d, m) := RecvMsg(c);
    if !m.Ok? then (d, Failed(m), [])
    else if m.value.FrameMsg? then (d, Ok(m.value.frame), [m.value])
    else
      assert |d.incoming| + |d.bytes| + |StreamOf(d.incoming)| < |c.incoming| + |c.bytes| + |StreamOf(c.incoming)| by {
        RecvMsgShrinks(c);
      }
      var (e, r, seen) := NextFrame(d);
      (e, r, [m.value] + seen)
  }

  /** The parse loop of `try_recv`: as far as the buffer goes. */
  function Drain(c: Conn): (o: (Conn, Res<Frame>, seq<Msg>))
    ensures SameButReads(c, o.0)
    decreases |c.bytes|
  {
    var (d, m) := NextMsg(c);
    if m.Err? then (d, Err(m.error), [])
    else if m.value.None? then (d, Err(WouldBlockError), [])
    else if m.value.value.FrameMsg? then (d, Ok(m.value.value.frame), [m.value.value])
    else
      var (e, r, seen) := Drain(d);
      (e, r, [m.value.value] + seen)
  }

  /** `recv` (and `recv_timeout`). */
  function Recv(c: Conn): (o: (Conn, Res<Frame>, seq<Msg>))
    ensures SameButReads(c.(queue := o.0.queue), o.0)
  {
    if c.queue != [] then (c.(queue := c.queue[1..]), Ok(c.queue[0]), []) else NextFrame(c)
  }

  /** `try_recv`. */
  function TryRecv(c: Conn): (o: (Conn, Res<Frame>, seq<Msg>))
    ensures SameButReads(c.(queue := o.0.queue), o.0)
  {
    if c.queue != [] then (c.(queue := c.queue[1..]), Ok(c.queue[0]), [])
    else
      var (d, got, _) := ReadMore(c);
      if !got.Ok? then (d, Failed(got), []) else Drain(d)
  }

  // ---------- Writing ----------

  /** Only the writes of the socket differ, and those are only used up. */
  predicate SameButWrites(c: Conn, d: Conn) {
    d == c.(writes := d.writes, written := d.written) && |d.writes| <= |c.writes|
  }

  /** `write_all_deadline`. */
  function Write(c: Conn, b: seq<Byte>): (o: (Conn, Res<()>))
    ensures SameButWrites(c, o.0) && c.written <= o.0.written <= c.written + b
    ensures (o.1.Ok? ==> o.0.written == c.written + b) && o.1 != Err(NoAck)
    decreases |c.writes|
  {
    if b == [] then (c, Ok(()))
    else if c.writes == [] then (c, Blocked)
    else
      var d := c.(writes := c.writes[1..]);
      match c.writes[0]
      case Took(n) =>
        if n == 0 then (d, Err(Disconnected))
        else
          var k := Min(n, |b|);
          assert b == b[..k] + b[k..];
          Write(d.(written := d.written + b[..k]), b[k..])
      case WriteBlocked(p) => if p == Ready then Write(d, b) else (d, Err(PollError(p)))
      case Interrupted => Write(d, b)
      case WriteFailed => (d, Err(IoError))
  }

  function HeaderOf(msgType: Byte, payload: seq<Byte>): seq<Byte>
    requires |payload| < 0x1_0000_0000
  {
    [msgType] + ToLE(|payload|, 4)
  }

  /** `write_msg_deadline`. */
  function WriteMsg(c: Conn, msgType: Byte, payload: seq<Byte>): (o: (Conn, Res<()>))
    ensures SameButWrites(c, o.0) && c.written <= o.0.written && o.1 != Err(NoAck)
    ensures if |payload| < 0x1_0000_0000
      then o.0.written <= c.written + Framed(msgType, payload)
           && (o.1.Ok? ==> o.0.written == c.written + Framed(msgType, payload))
      else o.0 == c && o.1 == Err(ProtocolError)
  {
    if |payload| >= 0x1_0000_0000 then (c, Err(ProtocolError))
    else
      var header := HeaderOf(msgType, payload);
      assert Framed(msgType, payload) == header + payload;
      var (d, r) := Write(c, header);
      assert c.written + header + payload == c.written + (header + payload);
      if r.Ok? then Write(d, payload) else (d, r)
  }

  function Encoded(q: Request): (p: seq<Byte>)
    requires q.Transmit? ==> Clean(q.send.frame)
    ensures ValidRequest(q) ==> p == RequestPayload(q)
    ensures !ValidRequest(q) ==> |p| >= 0x1_0000_0000
  {
    match q
    case Transmit(s) => EncodeSendFrame(s)
    case Filtering(n, fs) => EncodeFilters(n, fs)
  }

  datatype Asked = Asked(conn: Conn, res: Res<()>, seen: seq<Msg>)

  function Numbered(c: Conn): Conn { c.(next := (c.next + 1) % 0x1_0000_0000_0000_0000) }

  /** Write a request and, if it wants one, wait for its answer. */
  function Ask(c: Conn, q: Request, w: Option<Awaited>): (o: Asked)
    requires q.Transmit? ==> Clean(q.send.frame)
    ensures c.written <= o.conn.written && o.conn.next == c.next
  {
    var (d, r) := WriteMsg(c, RequestType(q), Encoded(q));
    if !r.Ok? || w.None? then Asked(d, r, [])
    else
      var o := Wait(d, w.value);
      Asked(o.conn, o.res, o.seen)
  }

  // ---------- Calls ----------

  datatype Op = DoSend(frame: Frame) | DoTrySend(frame: Frame) | DoSetFilters(filters: seq<Filter>) | DoRecv | DoTryRecv

  datatype OpResult = Written(res: Res<()>) | Read(frame: Res<Frame>)

  predicate Writes(op: Op) { !op.DoRecv? && !op.DoTryRecv? }

  /** What the source's callers can pass: frames are clean by construction. */
  predicate Callable(op: Op) { op.DoSend? || op.DoTrySend? ==> Clean(op.frame) }

  function RequestOf(op: Op, n: U64): Request
    requires Writes(op)
  {
    match op
    case DoSend(f) => Transmit(SendFrame(n, true, f))
    case DoTrySend(f) => Transmit(SendFrame(n, false, f))
    case DoSetFilters(fs) => Filtering(n, fs)
  }

  function AwaitedBy(op: Op, n: U64): Option<Awaited> {
    match op
    case DoSend(_) => Some(FrameAck(n))
    case DoSetFilters(_) => Some(FilterAck(n))
    case _ => None
  }

  datatype Called = Called(conn: Conn, res: OpResult, seen: seq<Msg>)

  /** The connection as a writing call has it before it writes: numbered, and with the new filters if it sets any. */
  function Prepared(c: Conn, op: Op): Conn {
    if op.DoSetFilters? then Numbered(c).(filters := op.filters) else Numbered(c)
  }

  /** One call: `send`, `try_send`, `set_filters`, `recv` or `try_recv`. */
  function Call(c: Conn, op: Op): (o: Called)
    requires Callable(op)
    ensures c.written <= o.conn.written && (!Writes(op) ==> o.conn.written == c.written)
    ensures o.conn.next == (if Writes(op) then Numbered(c).next else c.next) && (Writes(op) <==> o.res.Written?)
  {
    if Writes(op) then
      var o := Ask(Prepared(c, op), RequestOf(op, c.next), AwaitedBy(op, c.next));
      Called(o.conn, Written(o.res), o.seen)
    else
      var (d, f, seen) := if op.DoRecv? then Recv(c) else TryRecv(c);
      Called(d, Read(f), seen)
  }

  /** A new connection, before the greeting. */
  function NewConn(incoming: seq<ReadEvent>, writes: seq<WriteEvent>): Conn {
    Conn([], [], 1, [], incoming, writes, [])
  }
}
