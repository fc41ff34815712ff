/** What becomes of a connection on which a call failed part-way through a write and the application goes on. The
    server takes the bytes of later requests for the rest of the one that was cut off, so it may read requests
    that nobody made, out of the data of a frame. */
module CutOffWrites {
  import opened Basics
  import opened LittleEndian
  import opened CanTypes
  import opened Wire
  import opened Stream
  import opened Requests
  import opened Server
  import opened ServerReader
  import opened ClientSpec
  import opened ClientCalls
  import K = ClientSession

  // ---------- Bytes ----------

  lemma {:induction false} ZeroLE(k: nat)
    ensures forall i :: 0 <= i < k ==> ToLE(0, k)[i] == 0
  {
    if k > 0 {
      ZeroLE(k - 1);
    }
  }

  lemma {:induction false} FromZeros(s: seq<Byte>)
    requires forall i :: 0 <= i < |s| ==> s[i] == 0
    ensures FromLE(s) == 0
  {
    if s != [] {
      FromZeros(s[1..]);
    }
  }

  /** A frame whose data are four zeros and the bytes of request `q`. */
  function Carrier(x: StdRaw, q: Request): (f: Frame)
    requires ValidRequest(q) && |RequestBytes(q)| <= 60
    ensures Clean(f)
  {
    Frame(Standard(x), Padded(Zeros(4) + RequestBytes(q)), 4 + |RequestBytes(q)|, false)
  }

  /** Requests that fit into the data of a frame: an empty filter list, and a send of up to 41 bytes. */
  function SmallFilter(n: U64): (q: Request)
    ensures q == Filtering(n, []) && ValidRequest(q) && Fits(q) && |RequestBytes(q)| <= 60
  {
    Filtering(n, [])
  }

  function SmallSend(g: Frame): (q: Request)
    requires Clean(g) && g.dlc <= 41
    ensures q == Transmit(SendFrame(2, true, g)) && ValidRequest(q) && Fits(q) && |RequestBytes(q)| <= 60
  {
    Transmit(SendFrame(2, true, g))
  }

  /** The first call: a frame of four bytes, cut off after the message header. */
  const FIRST: Frame := Frame(Standard(0), Zeros(MAX_DATA_LEN), 4, false)
  const CUT_OFF: Piece := Piece(Transmit(SendFrame(1, true, FIRST)), 5)

  /** What the server takes for the payload of the first request: the head of the second one. */
  function Mistaken(x: StdRaw, q: Request): (p: seq<Byte>)
    requires ValidRequest(q) && |RequestBytes(q)| <= 60
    ensures |p| == 18
  {
    [MSG_SEND_FRAME] + ToLE(18 + |RequestBytes(q)|, 4) + ToLE(2, 8) + [4] + ToLE(x, 4)
  }

  lemma Regroup(
      a: seq<Byte>, b: seq<Byte>, c: seq<Byte>, d: seq<Byte>, e: seq<Byte>, g: seq<Byte>, h: seq<Byte>, z: seq<Byte>,
      r: seq<Byte>)
    ensures a + (b + c + (d + e + g + h + (z + r))) == (a + (b + c + d + e + g)) + ((h + z + []) + r)
  {
    assert b + c + (d + e + g + h + (z + r)) == (b + c + d + e + g) + (h + z + r);
    Associative(a, b + c + d + e + g, h + z + r);
    assert h + z + [] == h + z;
  }

  /** The bytes of the second request, piece by piece. */
  lemma CarrierBytes(x: StdRaw, q: Request, f: Frame, r: seq<Byte>)
    requires ValidRequest(q) && |RequestBytes(q)| <= 60 && f == Carrier(x, q) && r == RequestBytes(q)
    ensures RequestBytes(Transmit(SendFrame(2, true, f)))
         == [MSG_SEND_FRAME] + ToLE(18 + |r|, 4) + (ToLE(2, 8) + [4] + ToLE(x, 4) + [f.dlc] + (Zeros(4) + r))
  {
    assert f.data[..f.dlc] == Zeros(4) + r;
  }

  /** What the server takes for a message without a payload. */
  lemma EmptyFramed(d: Byte)
    ensures Framed(d, []) == [d] + Zeros(4) + []
  {
    ZeroLE(4);
    assert ToLE(0, 4) == Zeros(4);
  }

  /** The first five bytes of a request with a payload of 18. */
  lemma CutOffBytes()
    ensures PieceBytes(CUT_OFF) == [MSG_SEND_FRAME] + ToLE(18, 4)
  {
  }

  /** The second call: how the server splits its bytes. */
  lemma {:induction false} Shifted(x: StdRaw, q: Request, f: Frame, second: seq<Byte>)
    requires ValidRequest(q) && |RequestBytes(q)| <= 60 && f == Carrier(x, q)
    requires second == RequestBytes(Transmit(SendFrame(2, true, f)))
    ensures PieceBytes(CUT_OFF) + second
         == Framed(MSG_SEND_FRAME, Mistaken(x, q)) + (Framed(f.dlc, []) + RequestBytes(q))
  {
    var r, header, len := RequestBytes(q), [MSG_SEND_FRAME] + ToLE(18, 4), ToLE(18 + |RequestBytes(q)|, 4);
    CutOffBytes();
    CarrierBytes(x, q, f, r);
    EmptyFramed(f.dlc);
    Regroup(header, [MSG_SEND_FRAME], len, ToLE(2, 8), [4], ToLE(x, 4), [f.dlc], Zeros(4), r);
  }

  lemma Placed(h: seq<Byte>, m: seq<Byte>, t: seq<Byte>)
    requires |h| == 5 && |m| == 8
    ensures forall i :: 5 <= i < 13 ==> (h + m + [4] + t)[i] == m[i - 5]
    ensures (h + m + [4] + t)[13] == 4
  {
  }

  lemma TwoLE()
    ensures forall i :: 1 <= i < 8 ==> ToLE(2, 8)[i] == 0
  {
    ZeroLE(7);
    assert ToLE(2, 8) == [2] + ToLE(0, 7);
  }

  lemma MistakenBytes(x: StdRaw, q: Request)
    requires ValidRequest(q) && |RequestBytes(q)| <= 60
    ensures var p := Mistaken(x, q); p[8] == 0 && p[13] == 4 && forall i :: 9 <= i < 13 ==> p[i] == 0
  {
    Placed([MSG_SEND_FRAME] + ToLE(18 + |RequestBytes(q)|, 4), ToLE(2, 8), ToLE(x, 4));
    TwoLE();
  }

  /** Such bytes are a frame with id 0 that wants no ack. */
  lemma PhantomFrame(p: seq<Byte>)
    requires |p| == 18 && p[8] == 0 && p[13] == 4 && forall i :: 9 <= i < 13 ==> p[i] == 0
    ensures DecodeSendFrame(p).Good? && !DecodeSendFrame(p).value.expectAck
  {
    FromZeros(p[9..13]);
  }

  /** The head of the second request is a valid payload. */
  lemma MistakenIsFrame(x: StdRaw, q: Request)
    requires ValidRequest(q) && |RequestBytes(q)| <= 60
    ensures var m := DecodeSendFrame(Mistaken(x, q)); m.Good? && !m.value.expectAck
  {
    MistakenBytes(x, q);
    PhantomFrame(Mistaken(x, q));
  }

  /** What the client has written after both calls. */
  function BothCalls(x: StdRaw, q: Request): seq<Byte>
    requires ValidRequest(q) && |RequestBytes(q)| <= 60
  {
    PieceBytes(CUT_OFF) + RequestBytes(Transmit(SendFrame(2, true, Carrier(x, q))))
  }

  /** A send-frame, a message of a type the server does not know, and the rest. */
  lemma {:induction false} ReadPast(id: ClientId, payload: seq<Byte>, s: SendFrame, d: Byte, rest: seq<Byte>)
    requires |payload| <= MAX_PAYLOAD_LEN && DecodeSendFrame(payload) == Good(s) && d != MSG_SEND_FRAME
      && d != MSG_SET_FILTERS
    ensures ReadCommands(id, Framed(MSG_SEND_FRAME, payload) + (Framed(d, []) + rest), false)
         == [Send(id, s)] + ReadCommands(id, rest, false)
  {
    ReadFramed(id, MSG_SEND_FRAME, payload, Framed(d, []) + rest, false);
    ReadFramed(id, d, [], rest, false);
    assert [] + ReadCommands(id, rest, false) == ReadCommands(id, rest, false);
  }

  lemma {:induction false} ReadLast(id: ClientId, q: Request)
    requires ValidRequest(q) && Fits(q)
    ensures ReadCommands(id, RequestBytes(q), false) == [CommandOf(id, q)]
  {
    RequestReadsBack(id, q, [], false);
    assert RequestBytes(q) + [] == RequestBytes(q);
    assert ReadCommands(id, [], false) == [];
  }

  /** Any request that fits into a frame is read by the server as if it had been made. */
  lemma {:induction false} SmuggledRequest(id: ClientId, x: StdRaw, q: Request) returns (phantom: SendFrame)
    requires ValidRequest(q) && Fits(q) && |RequestBytes(q)| <= 60
    ensures ReadCommands(id, BothCalls(x, q), false) == [Send(id, phantom)] + [CommandOf(id, q)] && !phantom.expectAck
  {
    Shifted(x, q, Carrier(x, q), RequestBytes(Transmit(SendFrame(2, true, Carrier(x, q)))));
    MistakenIsFrame(x, q);
    phantom := DecodeSendFrame(Mistaken(x, q)).value;
    ReadPast(id, Mistaken(x, q), phantom, Carrier(x, q).dlc, RequestBytes(q));
    ReadLast(id, q);
  }

  // ---------- The client's side of it ----------

  /** The socket takes the header of the first request and then blocks until the deadline, and takes all of the second
      one, whose payload has `n` bytes. */
  function CutWrites(n: nat): seq<WriteEvent> { [Took(5), WriteBlocked(TimedOut), Took(5), Took(n)] }

  const GREETING: seq<Byte> := Framed(MSG_HELLO, [])

  /** The greeting arrives first, everything else later. */
  function TwoReads(b: seq<Byte>): seq<ReadEvent> { [Data(GREETING), Data(b)] }

  lemma TwoReadsStream(b: seq<Byte>)
    ensures StreamOf(TwoReads(b)) == GREETING + b && StreamOf([Data(b)]) == b
  {
    var events := TwoReads(b);
    assert events[0].bytes == GREETING && events[1..] == [Data(b)] && [Data(b)][1..] == [];
    assert StreamOf([Data(b)]) == b + [] == b;
    assert StreamOf(events) == events[0].bytes + StreamOf(events[1..]);
  }

  lemma GreetingIsHello(c: Conn)
    requires c.bytes == GREETING
    ensures NextMsg(c) == (c.(bytes := []), Ok(Some(Hello)))
  {
    HeadOfFramed(MSG_HELLO, [], []);
    assert GREETING + [] == GREETING;
  }

  /** Connecting reads the greeting and no more. */
  lemma ConnectsAtOnce(b: seq<Byte>, writes: seq<WriteEvent>)
    ensures Wait(NewConn(TwoReads(b), writes), Greeting)
         == Waited(NewConn([Data(b)], writes), Ok(()), [Hello])
  {
    var c := NewConn(TwoReads(b), writes);
    var d := c.(bytes := GREETING, incoming := [Data(b)]);
    assert [] + GREETING == GREETING && TwoReads(b)[1..] == [Data(b)];
    assert ReadMore(c) == (d, Ok(true), Ready);
    GreetingIsHello(d);
    assert RecvMsg(c) == RecvMsg(d) == (d.(bytes := []), Ok(Hello));
  }

  lemma WriteAtOnce(c: Conn, b: seq<Byte>)
    requires b != [] && c.writes != [] && c.writes[0] == Took(|b|)
    ensures Write(c, b) == (c.(writes := c.writes[1..], written := c.written + b), Ok(()))
  {
    assert b[..|b|] == b && b[|b|..] == [];
  }

  /** A message of which the socket takes the header only. */
  lemma CutMsg(c: Conn, msgType: Byte, payload: seq<Byte>, more: seq<WriteEvent>)
    requires 0 < |payload| < 0x1_0000_0000 && c.writes == [Took(5), WriteBlocked(TimedOut)] + more
    ensures WriteMsg(c, msgType, payload)
         == (c.(writes := more, written := c.written + HeaderOf(msgType, payload)), Err(TimeoutError))
  {
    var header := HeaderOf(msgType, payload);
    WriteAtOnce(c, header);
    var d := c.(writes := c.writes[1..], written := c.written + header);
    assert d.writes == [WriteBlocked(TimedOut)] + more && d.writes[1..] == more;
    assert Write(d, payload) == (d.(writes := more), Err(TimeoutError));
  }

  lemma CutWrite(c: Conn, q: Request, w: Awaited, more: seq<WriteEvent>)
    requires ValidRequest(q) && RequestPayload(q) != [] && c.writes == [Took(5), WriteBlocked(TimedOut)] + more
    ensures Ask(c, q, Some(w)) == Asked(
      c.(writes := more, written := c.written + HeaderOf(RequestType(q), RequestPayload(q))), Err(TimeoutError), [])
  {
    CutMsg(c, RequestType(q), RequestPayload(q), more);
  }

  /** The first call stops after the header. */
  lemma CutCall(c: Conn, n: nat)
    requires c.writes == CutWrites(n) && c.next == 1
    ensures Call(c, DoSend(FIRST)) == Called(
      c.(next := 2, writes := [Took(5), Took(n)], written := c.written + PieceBytes(CUT_OFF)),
      Written(Err(TimeoutError)), [])
  {
    var q, d := Transmit(SendFrame(1, true, FIRST)), c.(next := 2);
    assert c.writes == [Took(5), WriteBlocked(TimedOut)] + [Took(5), Took(n)];
    assert HeaderOf(MSG_SEND_FRAME, RequestPayload(q)) == PieceBytes(CUT_OFF);
    CutWrite(d, q, FrameAck(1), [Took(5), Took(n)]);
    assert d == Prepared(c, DoSend(FIRST)) && q == RequestOf(DoSend(FIRST), 1);
  }

  /** A request that the socket takes in two writes. */
  lemma WholeWrite(c: Conn, q: Request)
    requires ValidRequest(q) && RequestPayload(q) != [] && c.writes == [Took(5), Took(|RequestPayload(q)|)]
    ensures WriteMsg(c, RequestType(q), Encoded(q))
      == (c.(writes := [], written := c.written + RequestBytes(q)), Ok(()))
  {
    var header, payload := HeaderOf(RequestType(q), Encoded(q)), Encoded(q);
    WriteAtOnce(c, header);
    var d := Write(c, header).0;
    assert d.writes == [Took(|payload|)];
    WriteAtOnce(d, payload);
    Associative(c.written, header, payload);
  }

  /** A connection that has written all of request `q`. */
  function AllOut(c: Conn, q: Request): Conn
    requires ValidRequest(q)
  {
    c.(writes := [], written := c.written + RequestBytes(q))
  }

  lemma AskWhole(c: Conn, q: Request, w: Awaited)
    requires ValidRequest(q) && RequestPayload(q) != [] && c.writes == [Took(5), Took(|RequestPayload(q)|)]
    ensures var o := Wait(AllOut(c, q), w); Ask(c, q, Some(w)) == Asked(o.conn, o.res, o.seen)
  {
    WholeWrite(c, q);
  }

  lemma SendAsks(c: Conn, f: Frame, d: Conn, q: Request, o: Asked)
    requires Clean(f) && d == Numbered(c) && q == Transmit(SendFrame(c.next, true, f))
    requires o == Ask(d, q, Some(FrameAck(c.next)))
    ensures Call(c, DoSend(f)) == Called(o.conn, Written(o.res), o.seen)
  {
  }

  lemma SendSize(f: Frame, n: U64)
    requires Clean(f)
    ensures |RequestPayload(Transmit(SendFrame(n, true, f)))| == SEND_FRAME_HDR_LEN + f.dlc
  {
  }

  /** The second call writes all of its request and then waits for its ack. */
  lemma {:induction false} WholeCall(c: Conn, f: Frame, d: Conn, q: Request) returns (o: Waited)
    requires Clean(f) && c.next == 2 && d == c.(next := 3) && q == Transmit(SendFrame(2, true, f))
    requires c.writes == [Took(5), Took(|RequestPayload(q)|)]
    ensures o == Wait(AllOut(d, q), FrameAck(2))
    ensures Call(c, DoSend(f)) == Called(o.conn, Written(o.res), o.seen)
  {
    o := Wait(AllOut(d, q), FrameAck(2));
    AskWhole(d, q, FrameAck(2));
    SendAsks(c, f, d, q, Asked(o.conn, o.res, o.seen));
  }

  lemma {:induction false} OneCall(c: Conn, a: Op, o: Called) returns (was: K.Ran)
    requires Callable(a) && o == Call(c, a)
    ensures was == K.Run(c, [a]) && was.conn == o.conn && was.trace.results == [o.res] && was.trace.seen == o.seen
  {
    was := K.Run(c, [a]);
    K.RunMore(c, [], a);
    assert [] + [a] == [a] && [] + o.seen == o.seen;
  }

  lemma {:induction false} TwoCalls(c: Conn, a: Op, b: Op, o: Called, o': Called, r: K.Ran)
    requires Callable(a) && Callable(b) && o == Call(c, a) && o' == Call(o.conn, b) && r == K.Run(c, [a, b])
    ensures
      && r.conn == o'.conn && r.trace.results == [o.res, o'.res] && r.trace.seen == o.seen + o'.seen
  {
    var was := OneCall(c, a, o);
    K.RunMore(c, [a], b);
    assert [a] + [b] == [a, b];
  }

  /** The two calls of the session. */
  function CutOps(x: StdRaw, q: Request): (ops: seq<Op>)
    requires ValidRequest(q) && |RequestBytes(q)| <= 60
    ensures K.AllCallable(ops)
  {
    [DoSend(FIRST), DoSend(Carrier(x, q))]
  }

  /** What is left of the stream when the second call starts to wait. */
  function SecondWait(x: StdRaw, q: Request, b: seq<Byte>): Conn
    requires ValidRequest(q) && |RequestBytes(q)| <= 60
  {
    Conn([], [], 3, [], [Data(b)], [], BothCalls(x, q))
  }

  lemma SecondUpcoming(x: StdRaw, q: Request, b: seq<Byte>)
    requires ValidRequest(q) && |RequestBytes(q)| <= 60
    ensures Upcoming(SecondWait(x, q, b)) == DecodeAll(b)
  {
    TwoReadsStream(b);
    assert [] + b == b;
  }

  /** It is how the connection is left by the calls. */
  lemma SecondStart(x: StdRaw, q: Request, b: seq<Byte>, writes: seq<WriteEvent>)
    requires ValidRequest(q) && |RequestBytes(q)| <= 60
    ensures var c := NewConn([Data(b)], writes);
      var sent := c.written + PieceBytes(CUT_OFF) + RequestBytes(Transmit(SendFrame(2, true, Carrier(x, q))));
      c.(next := 3, writes := [], written := sent) == SecondWait(x, q, b)
  {
    assert [] + PieceBytes(CUT_OFF) == PieceBytes(CUT_OFF);
  }

  /** The session, as the client's code plays it. */
  function CutSession(x: StdRaw, q: Request, b: seq<Byte>): K.Session
    requires ValidRequest(q) && |RequestBytes(q)| <= 60
  {
    K.Play(TwoReads(b), CutWrites(SEND_FRAME_HDR_LEN + Carrier(x, q).dlc), CutOps(x, q))
  }

  lemma {:induction false} BothPlayed(c: Conn, f: Frame, r: K.Ran) returns (o: Waited)
    requires Clean(f) && c.next == 1 && c.writes == CutWrites(SEND_FRAME_HDR_LEN + f.dlc)
    requires Callable(DoSend(FIRST)) && r == K.Run(c, [DoSend(FIRST), DoSend(f)])
    ensures var sent := c.written + PieceBytes(CUT_OFF) + RequestBytes(Transmit(SendFrame(2, true, f)));
      o == Wait(c.(next := 3, writes := [], written := sent), FrameAck(2))
    ensures r.conn == o.conn && r.trace.results == [Written(Err(TimeoutError)), Written(o.res)]
      && r.trace.seen == o.seen
  {
    var first := Call(c, DoSend(FIRST));
    CutCall(c, SEND_FRAME_HDR_LEN + f.dlc);
    SendSize(f, 2);
    o := WholeCall(first.conn, f, first.conn.(next := 3), Transmit(SendFrame(2, true, f)));
    TwoCalls(c, DoSend(FIRST), DoSend(f), first, Call(first.conn, DoSend(f)), r);
  }

  lemma {:induction false} PlayedAtOnce(b: seq<Byte>, writes: seq<WriteEvent>, ops: seq<Op>) returns (r: K.Ran)
    requires K.AllCallable(ops)
    ensures r == K.Run(NewConn([Data(b)], writes), ops)
    ensures K.Play(TwoReads(b), writes, ops) == K.Session(true, [Hello], r.trace, r.conn)
  {
    ConnectsAtOnce(b, writes);
    r := K.Run(NewConn([Data(b)], writes), ops);
  }

  /** The two calls after the greeting. */
  lemma {:induction false} CutCallsPlay(x: StdRaw, q: Request, b: seq<Byte>, writes: seq<WriteEvent>, r: K.Ran)
      returns (o: Waited)
    requires ValidRequest(q) && |RequestBytes(q)| <= 60 && writes == CutWrites(SEND_FRAME_HDR_LEN + Carrier(x, q).dlc)
    requires r == K.Run(NewConn([Data(b)], writes), CutOps(x, q))
    ensures o == Wait(SecondWait(x, q, b), FrameAck(2)) && r.conn == o.conn
    ensures r.trace.results == [Written(Err(TimeoutError)), Written(o.res)] && r.trace.seen == o.seen
  {
    o := BothPlayed(NewConn([Data(b)], writes), Carrier(x, q), r);
    SecondStart(x, q, b, writes);
  }

  /** It connects, the first call fails after five bytes, and the second is written whole and waits. */
  lemma {:induction false} CutSessionPlays(x: StdRaw, q: Request, b: seq<Byte>) returns (s: K.Session, o: Waited)
    requires ValidRequest(q) && |RequestBytes(q)| <= 60
    ensures s == CutSession(x, q, b) && o == Wait(SecondWait(x, q, b), FrameAck(2))
    ensures s.connected && s.greeting == [Hello] && s.trace.ops == CutOps(x, q) && s.conn.written == o.conn.written
    ensures s.trace.results == [Written(Err(TimeoutError)), Written(o.res)] && s.trace.seen == o.seen
  {
    var writes := CutWrites(SEND_FRAME_HDR_LEN + Carrier(x, q).dlc);
    var r := PlayedAtOnce(b, writes, CutOps(x, q));
    o := CutCallsPlay(x, q, b, writes, r);
    s := K.Session(true, [Hello], r.trace, r.conn);
  }

  /** The only ack of a frame in `msgs` is that of number `n`, and it is OK. */
  predicate OneAck(msgs: seq<Msg>, n: U64) {
    AckMsg(n, ACK_OK) in msgs && forall m :: m in msgs && m.AckMsg? ==> m == AckMsg(n, ACK_OK)
  }

  predicate NoAcks(msgs: seq<Msg>) { forall i :: 0 <= i < |msgs| ==> !msgs[i].AckMsg? }

  lemma DecidedByAck(seen: seq<Msg>, msgs: seq<Msg>, n: U64, r: Res<()>)
    requires OneAck(msgs, n) && seen <= msgs
    requires Answered(seen, FrameAck(n), r) || Unread(msgs, FrameAck(n))
    ensures r.Ok?
  {
    var i :| 0 <= i < |msgs| && msgs[i] == AckMsg(n, ACK_OK);
    assert Answers(msgs[i], FrameAck(n));
    assert seen[|seen| - 1] in msgs;
  }

  lemma NothingDecided(seen: seq<Msg>, msgs: seq<Msg>, n: U64, r: Res<()>)
    requires NoAcks(msgs) && seen <= msgs
    ensures !Answered(seen, FrameAck(n), r)
  {
    assert seen != [] ==> msgs[|seen| - 1] == seen[|seen| - 1];
  }

  /** Undisturbed, a call with one ack to come takes it, and a call with none to come reads everything. */
  lemma {:induction false} WaitForOne(c: Conn, n: U64) returns (o: Waited)
    requires Readable(c.incoming)
    ensures o == Wait(c, FrameAck(n))
    ensures OneAck(Upcoming(c), n) ==> o.res == Ok(())
    ensures NoAcks(Upcoming(c)) ==> o.seen == Upcoming(c)
  {
    o := Wait(c, FrameAck(n));
    WaitTakes(c, FrameAck(n));
    assert o.seen + [] == o.seen;
    if OneAck(Upcoming(c), n) {
      DecidedByAck(o.seen, Upcoming(c), n, o.res);
    }
    if NoAcks(Upcoming(c)) {
      NothingDecided(o.seen, Upcoming(c), n, o.res);
    }
  }

  /** The second call returns Ok if its ack is the one to come, and reads everything if none is. */
  lemma {:induction false} CutSessionReads(x: StdRaw, q: Request, b: seq<Byte>) returns (s: K.Session)
    requires ValidRequest(q) && |RequestBytes(q)| <= 60 && b != []
    ensures s == CutSession(x, q, b) && s.connected && s.greeting == [Hello]
    ensures s.trace.ops == CutOps(x, q) && s.conn.written == BothCalls(x, q)
    ensures |s.trace.results| == 2 && s.trace.results[0] == Written(Err(TimeoutError))
    ensures OneAck(DecodeAll(b), 2) ==> s.trace.results[1] == Written(Ok(()))
    ensures NoAcks(DecodeAll(b)) ==> s.trace.seen == DecodeAll(b)
  {
    var o;
    s, o := CutSessionPlays(x, q, b);
    assert Readable([Data(b)]);
    SecondUpcoming(x, q, b);
    var o' := WaitForOne(SecondWait(x, q, b), 2);
  }
}
