/** What one call of the client means: no message is skipped, no frame is lost, a result has its cause in the messages
    read, and a request goes out whole or its call fails. */
module ClientCalls {
  import opened Basics
  import opened CanTypes
  import opened Wire
  import opened Stream
  import opened Requests
  import opened ClientSpec

  // ---------- Faults of the socket ----------

  /** A read that makes a waiting call give up. */
  predicate ReadFault(e: ReadEvent) { e.ReadFailed? || e == Data([]) || (e.WouldBlock? && e.poll != Ready) }

  predicate Readable(events: seq<ReadEvent>) {
    events == [] || (!ReadFault(events[0]) && Readable(events[1..]))
  }

  /** A write that makes a call give up. */
  predicate WriteFault(e: WriteEvent) { e.WriteFailed? || e == Took(0) || (e.WriteBlocked? && e.poll != Ready) }

  predicate Writable(events: seq<WriteEvent>) {
    events == [] || (!WriteFault(events[0]) && Writable(events[1..]))
  }

  predicate Undisturbed(c: Conn) { Readable(c.incoming) && Writable(c.writes) }

  /** Socket events are only used up, and what is left of undisturbed ones is undisturbed. */
  predicate Fewer(c: Conn, d: Conn) {
    && |d.incoming| <= |c.incoming| && |d.writes| <= |c.writes|
    && (Readable(c.incoming) ==> Readable(d.incoming)) && (Writable(c.writes) ==> Writable(d.writes))
  }

  /** A call is left waiting only when events run out, and gives up on the socket only if that was disturbed. */
  predicate Excused<T>(r: Res<T>, c: Conn, d: Conn) {
    match r
    case Ok(_) => true
    case Blocked => d.incoming == [] || d.writes == []
    case Err(e) => e in {IoError, TimeoutError, Disconnected} ==> !Undisturbed(c)
  }

  // ---------- Reading one message ----------

  lemma ReadMoreKeeps(c: Conn)
    ensures var (d, r, poll) := ReadMore(c);
      && Upcoming(d) == Upcoming(c) && r != Err(NoAck)
      && (Readable(c.incoming) ==> Readable(d.incoming) && !r.Err? && (r == Ok(false) ==> poll == Ready))
  {
    if c.incoming != [] {
      var tail := StreamOf(c.incoming[1..]);
      assert [] + tail == tail;
      if c.incoming[0].Data? {
        Associative(c.bytes, c.incoming[0].bytes, tail);
      }
    }
  }

  lemma NextMsgTakes(c: Conn)
    ensures var (d, m) := NextMsg(c);
      && !m.Blocked? && (m.Err? ==> d == c && Upcoming(c) == [] && m.error == ProtocolError)
      && (m == Ok(None) ==> d == c && DecodeAll(c.bytes) == [])
      && (m.Ok? && m.value.Some? ==> Upcoming(c) == [m.value.value] + Upcoming(d) && d == c.(bytes := d.bytes))
  {
    var (d, m) := NextMsg(c);
    if m.Err? {
      StuckFront(c.bytes, StreamOf(c.incoming));
    } else if m.value.Some? {
      TakeOne(c.bytes, StreamOf(c.incoming));
    }
  }

  /** Undisturbed, a read without a message means that no message is left. */
  predicate EndsWell<T>(r: Res<T>, c: Conn, d: Conn) {
    && (r.Blocked? ==> d.incoming == [])
    && (Readable(c.incoming) ==> Readable(d.incoming))
    && (Readable(c.incoming) && !r.Ok? ==> Upcoming(d) == [] && (r.Blocked? || r == Err(ProtocolError)))
  }

  /** The next message of the stream, or nothing is lost. */
  lemma {:induction false} RecvMsgTakes(c: Conn)
    ensures var (d, m) := RecvMsg(c);
      && Upcoming(c) == (if m.Ok? then [m.value] else []) + Upcoming(d)
      && m != Err(NoAck) && EndsWell(m, c, d)
    decreases |c.incoming|
  {
    NextMsgTakes(c);
    if NextMsg(c).1 == Ok(None) {
      ReadMoreKeeps(c);
      if c.incoming == [] {
        assert c.bytes + StreamOf(c.incoming) == c.bytes;
      } else {
        RecvMsgTakes(ReadMore(c).0);
      }
    }
  }

  // ---------- Waiting for an answer ----------

  /** What a call returns on its answer: an OK status is success, a no-ack status of a frame is reported as such, and
      any other status is a protocol error. The greeting is success. */
  predicate Says(m: Msg, r: Res<()>) {
    match m
    case AckMsg(_, status) =>
      && (status == ACK_OK ==> r == Ok(())) && (status == ACK_NO_ACK ==> r == Err(NoAck))
      && (status != ACK_OK && status != ACK_NO_ACK ==> r == Err(ProtocolError))
    case FiltersAckMsg(_, status) =>
      (status == ACK_OK ==> r == Ok(())) && (status != ACK_OK ==> r == Err(ProtocolError))
    case _ => r == Ok(())
  }

  /** The messages a call read: the last one answers and decides the result, and none before it does. */
  predicate Answered(seen: seq<Msg>, w: Awaited, r: Res<()>) {
    && seen != []
    && Answers(seen[|seen| - 1], w)
    && Says(seen[|seen| - 1], r)
    && Unread(seen[..|seen| - 1], w)
  }

  predicate Unread(seen: seq<Msg>, w: Awaited) { forall i :: 0 <= i < |seen| ==> !Answers(seen[i], w) }

  /** No message that a call read answers, so it has no verdict. */
  predicate Unanswered(seen: seq<Msg>, w: Awaited, r: Res<()>) { !r.Ok? && r != Err(NoAck) && Unread(seen, w) }

  lemma GrowSeen(m: Msg, rest: seq<Msg>, w: Awaited, r: Res<()>)
    requires !Answers(m, w)
    ensures Answered(rest, w, r) ==> Answered([m] + rest, w, r)
    ensures Unanswered(rest, w, r) ==> Unanswered([m] + rest, w, r)
    ensures FramesOf([m] + rest) == (if m.FrameMsg? then [m.frame] else []) + FramesOf(rest)
  {
    assert ([m] + rest)[1..] == rest;
    if rest != [] {
      assert ([m] + rest)[..|rest|] == [m] + rest[..|rest| - 1];
    }
  }

  lemma OneSeen(m: Msg)
    ensures FramesOf([m]) == if m.FrameMsg? then [m.frame] else []
  {
    assert [m][1..] == [];
  }

  /** The stream was read in order, up to the first answer if there is one, and every frame of it was queued. */
  predicate WaitedWell(c: Conn, w: Awaited, o: Waited) {
    && Upcoming(c) == o.seen + Upcoming(o.conn) && o.conn.queue == c.queue + FramesOf(o.seen)
    && (Answered(o.seen, w, o.res) || Unanswered(o.seen, w, o.res))
    && (o.res.Blocked? ==> o.conn.incoming == [])
    && (Readable(c.incoming) ==> Readable(o.conn.incoming))
    && (Readable(c.incoming) && Unanswered(o.seen, w, o.res) ==>
          Upcoming(o.conn) == [] && (o.res.Blocked? || o.res == Err(ProtocolError)))
  }

  /** One message that is no answer, before the rest of the wait. */
  lemma WaitStep(c: Conn, d: Conn, m: Msg, w: Awaited, rest: Waited)
    requires Upcoming(c) == [m] + Upcoming(d) && d.queue == c.queue && (Readable(c.incoming) ==> Readable(d.incoming))
    requires !Answers(m, w) && WaitedWell(Store(d, m), w, rest)
    ensures WaitedWell(c, w, rest.(seen := [m] + rest.seen))
  {
    GrowSeen(m, rest.seen, w, rest.res);
    Associative([m], rest.seen, Upcoming(rest.conn));
    Associative(c.queue, if m.FrameMsg? then [m.frame] else [], FramesOf(rest.seen));
    assert Upcoming(Store(d, m)) == Upcoming(d);
    assert Unanswered([m] + rest.seen, w, rest.res) ==> Unanswered(rest.seen, w, rest.res);
  }

  lemma WaitLast(c: Conn, d: Conn, m: Msg, w: Awaited)
    requires Upcoming(c) == [m] + Upcoming(d) && d.queue == c.queue && (Readable(c.incoming) ==> Readable(d.incoming))
    requires Answers(m, w)
    ensures WaitedWell(c, w, Waited(Store(d, m), Verdict(m), [m]))
  {
    OneSeen(m);
  }

  /** Waiting loses nothing; undisturbed, it stays without an answer only if the stream holds none. */
  lemma {:induction false} WaitTakes(c: Conn, w: Awaited)
    ensures WaitedWell(c, w, Wait(c, w))
    decreases |c.incoming| + |c.bytes| + |StreamOf(c.incoming)|
  {
    RecvMsgTakes(c);
    var (d, m) := RecvMsg(c);
    if m.Ok? {
      if Answers(m.value, w) {
        WaitLast(c, d, m.value, w);
      } else {
        RecvMsgShrinks(c);
        WaitTakes(Store(d, m.value), w);
        WaitStep(c, d, m.value, w, Wait(Store(d, m.value), w));
      }
    }
  }

  lemma {:induction false} KeepsPending(queue: seq<Frame>, seen: seq<Msg>, after: seq<Msg>)
    ensures (queue + FramesOf(seen)) + FramesOf(after) == queue + FramesOf(seen + after)
  {
    FramesOfConcat(seen, after);
    Associative(queue, FramesOf(seen), FramesOf(after));
  }

  // ---------- Receiving ----------

  /** A receiving call read `seen` and handed over the next pending frame, or nothing is lost. */
  predicate TookNext(c: Conn, o: (Conn, Res<Frame>, seq<Msg>)) {
    && Upcoming(c) == o.2 + Upcoming(o.0)
    && Pending(c) == (if o.1.Ok? then [o.1.value] else []) + Pending(o.0)
  }

  lemma FirstFrame(m: Msg, after: seq<Msg>)
    ensures FramesOf([m] + after) == (if m.FrameMsg? then [m.frame] else []) + FramesOf(after)
  {
    assert ([m] + after)[1..] == after;
  }

  lemma NoQueue(c: Conn)
    requires c.queue == []
    ensures Pending(c) == FramesOf(Upcoming(c))
  {
  }

  /** One message that is no frame, before what a receive loop does next. */
  lemma Skipped(c: Conn, d: Conn, m: Msg, o: (Conn, Res<Frame>, seq<Msg>))
    requires c.queue == [] == d.queue && Upcoming(c) == [m] + Upcoming(d) && !m.FrameMsg? && TookNext(d, o)
    ensures TookNext(c, (o.0, o.1, [m] + o.2))
  {
    FirstFrame(m, Upcoming(d));
    Associative([m], o.2, Upcoming(o.0));
    NoQueue(c);
    NoQueue(d);
  }

  lemma Received(c: Conn, d: Conn, m: Msg)
    requires c.queue == [] == d.queue && Upcoming(c) == [m] + Upcoming(d) && m.FrameMsg?
    ensures TookNext(c, (d, Ok(m.frame), [m]))
  {
    FirstFrame(m, Upcoming(d));
    NoQueue(c);
    NoQueue(d);
  }

  lemma NothingReceived(c: Conn, d: Conn, r: Res<Frame>)
    requires c.queue == [] == d.queue && Upcoming(c) == Upcoming(d) && !r.Ok?
    ensures TookNext(c, (d, r, []))
  {
  }

  lemma {:induction false} NextFrameTakes(c: Conn)
    requires c.queue == []
    ensures var o := NextFrame(c); TookNext(c, o) && EndsWell(o.1, c, o.0)
    decreases |c.incoming| + |c.bytes| + |StreamOf(c.incoming)|
  {
    RecvMsgTakes(c);
    RecvMsgShrinks(c);
    var (d, m) := RecvMsg(c);
    if m.Ok? {
      if m.value.FrameMsg? {
        Received(c, d, m.value);
      } else {
        NextFrameTakes(d);
        Skipped(c, d, m.value, NextFrame(d));
      }
    } else {
      NothingReceived(c, d, Failed(m));
    }
  }

  lemma {:induction false} DrainTakes(c: Conn)
    requires c.queue == []
    ensures var o := Drain(c);
      && TookNext(c, o) && o.0.incoming == c.incoming && !o.1.Blocked?
      && (o.1.Err? ==> o.1 == Err(ProtocolError) || (o.1 == Err(WouldBlockError) && DecodeAll(o.0.bytes) == []))
    decreases |c.bytes|
  {
    NextMsgTakes(c);
    var (d, m) := NextMsg(c);
    if m.Ok? && m.value.Some? {
      if m.value.value.FrameMsg? {
        Received(c, d, m.value.value);
      } else {
        DrainTakes(d);
        Skipped(c, d, m.value.value, Drain(d));
      }
    }
  }

  lemma TakeQueued(c: Conn)
    requires c.queue != []
    ensures TookNext(c, (c.(queue := c.queue[1..]), Ok(c.queue[0]), []))
  {
    Associative([c.queue[0]], c.queue[1..], FramesOf(Upcoming(c)));
  }

  /** `recv` hands over the oldest pending frame; undisturbed, it fails only if no frame is pending. */
  lemma RecvTakes(c: Conn)
    ensures var o := Recv(c);
      && TookNext(c, o) && Fewer(c, o.0) && Excused(o.1, c, o.0)
      && (Readable(c.incoming) && !o.1.Ok? ==> Pending(c) == [])
  {
    if c.queue != [] {
      TakeQueued(c);
    } else {
      NextFrameTakes(c);
    }
  }

  /** `try_recv` makes at most one read, and says that it would block only if nothing at hand is left. */
  lemma TryRecvTakes(c: Conn)
    ensures var o := TryRecv(c);
      && TookNext(c, o) && Fewer(c, o.0) && Excused(o.1, c, o.0) && |c.incoming| <= |o.0.incoming| + 1
      && (o.1 == Err(WouldBlockError) ==> o.0.queue == [] && DecodeAll(o.0.bytes) == [])
  {
    if c.queue != [] {
      TakeQueued(c);
    } else {
      ReadMoreKeeps(c);
      var (d, got, _) := ReadMore(c);
      if got.Ok? {
        DrainTakes(d);
      }
    }
  }

  // ---------- Writing ----------

  lemma {:induction false} WriteEnds(c: Conn, b: seq<Byte>)
    ensures var (d, r) := Write(c, b);
      && (r.Blocked? ==> d.writes == [])
      && (Writable(c.writes) ==> Writable(d.writes) && (r.Ok? || r.Blocked?))
    decreases |c.writes|
  {
    if b != [] && c.writes != [] {
      var d := c.(writes := c.writes[1..]);
      match c.writes[0]
      case Took(n) =>
        if n != 0 {
          var k := Min(n, |b|);
          WriteEnds(d.(written := d.written + b[..k]), b[k..]);
        }
      case WriteBlocked(p) => WriteEnds(d, b);
      case Interrupted => WriteEnds(d, b);
      case WriteFailed =>
    }
  }

  lemma WriteMsgEnds(c: Conn, msgType: Byte, payload: seq<Byte>)
    ensures var (d, r) := WriteMsg(c, msgType, payload);
      && (r.Blocked? ==> d.writes == [])
      && (Writable(c.writes) ==> Writable(d.writes))
      && (Writable(c.writes) && !r.Ok? ==> r.Blocked? || (r == Err(ProtocolError) && |payload| >= 0x1_0000_0000))
  {
    if |payload| < 0x1_0000_0000 {
      var header := HeaderOf(msgType, payload);
      WriteEnds(c, header);
      WriteEnds(Write(c, header).0, payload);
    }
  }

  // ---------- Writing calls ----------

  /** What the result of a writing call says: of its own request, and of the messages read. */
  predicate Honoured(p: Piece, r: Res<()>, seen: seq<Msg>) {
    && (ValidRequest(p.request) ==> ValidPiece(p))
    && (r.Ok? || r == Err(NoAck) ==> ValidRequest(p.request) && Complete(p))
    && match p.request
       case Transmit(s) =>
         && (s.expectAck && r.Ok? ==> AckMsg(s.seqNo, ACK_OK) in seen)
         && (r == Err(NoAck) ==> s.expectAck && AckMsg(s.seqNo, ACK_NO_ACK) in seen)
       case Filtering(n, _) => r != Err(NoAck) && (r.Ok? ==> FiltersAckMsg(n, ACK_OK) in seen)
  }

  /** The bytes that a writing call numbered `n` puts on the stream, `wrote` of them; a receiving call puts none. */
  function OpBytes(op: Op, n: U64, wrote: nat): seq<Byte> {
    if Writes(op) && ValidPiece(Piece(RequestOf(op, n), wrote)) then PieceBytes(Piece(RequestOf(op, n), wrote)) else []
  }

  lemma PieceWritten(q: Request, before: seq<Byte>, after: seq<Byte>)
    requires ValidRequest(q) && before <= after <= before + RequestBytes(q)
    ensures var p := Piece(q, |after| - |before|); ValidPiece(p) && after == before + PieceBytes(p)
    ensures after == before + RequestBytes(q) ==> Complete(Piece(q, |after| - |before|))
  {
  }

  /** What goes out is a part of the request itself, all of it if the write is Ok. */
  lemma WroteRequest(c: Conn, q: Request)
    requires q.Transmit? ==> Clean(q.send.frame)
    ensures var (d, r) := WriteMsg(c, RequestType(q), Encoded(q));
      var p := Piece(q, |d.written| - |c.written|);
      && (if ValidRequest(q) then ValidPiece(p) && d.written == c.written + PieceBytes(p) else d.written == c.written)
      && (r.Ok? ==> ValidRequest(q) && Complete(p))
  {
    if ValidRequest(q) {
      PieceWritten(q, c.written, WriteMsg(c, RequestType(q), Encoded(q)).0.written);
    }
  }

  /** An answer that makes a call succeed, or report no-ack, is in what the call read. */
  lemma AnswerSeen(seen: seq<Msg>, w: Awaited, r: Res<()>)
    requires Answered(seen, w, r)
    ensures w.FrameAck? && r.Ok? ==> AckMsg(w.seqNo, ACK_OK) in seen
    ensures r == Err(NoAck) ==> w.FrameAck? && AckMsg(w.seqNo, ACK_NO_ACK) in seen
    ensures w.FilterAck? && r.Ok? ==> FiltersAckMsg(w.seqNo, ACK_OK) in seen
    ensures w.Greeting? ==> r.Ok? && Hello in seen
  {
    assert seen[|seen| - 1] in seen;
  }

  /** Every writing call, whatever its result: only a part of its own request goes out, and the result is honest. */
  lemma AskHonoured(c: Conn, q: Request, w: Option<Awaited>)
    requires q.Transmit? ==> Clean(q.send.frame)
    requires w == if q.Filtering? then Some(FilterAck(q.seqNo))
                  else if q.send.expectAck then Some(FrameAck(q.send.seqNo)) else None
    ensures var o := Ask(c, q, w);
      var p := Piece(q, |o.conn.written| - |c.written|);
      && Honoured(p, o.res, o.seen)
      && o.conn.written == c.written + (if ValidPiece(p) then PieceBytes(p) else [])
  {
    WroteRequest(c, q);
    var (d, r) := WriteMsg(c, RequestType(q), Encoded(q));
    if r.Ok? && w.Some? {
      WaitTakes(d, w.value);
      var o := Wait(d, w.value);
      if Answered(o.seen, w.value, o.res) {
        AnswerSeen(o.seen, w.value, o.res);
      }
    }
  }

  lemma WaitKeeps(c: Conn, w: Awaited)
    ensures var o := Wait(c, w);
      && Upcoming(c) == o.seen + Upcoming(o.conn) && Pending(o.conn) == Pending(c)
      && Fewer(c, o.conn) && Excused(o.res, c, o.conn)
  {
    WaitTakes(c, w);
    var o := Wait(c, w);
    KeepsPending(c.queue, o.seen, Upcoming(o.conn));
    assert o.res.Err? && Readable(c.incoming) ==> o.res.error in {ProtocolError, NoAck};
  }

  /** Every writing call, whatever its result, loses no frame. */
  lemma AskKeeps(c: Conn, q: Request, w: Option<Awaited>)
    requires q.Transmit? ==> Clean(q.send.frame)
    ensures var o := Ask(c, q, w);
      && Upcoming(c) == o.seen + Upcoming(o.conn) && Pending(o.conn) == Pending(c)
      && Fewer(c, o.conn) && Excused(o.res, c, o.conn)
  {
    var (d, r) := WriteMsg(c, RequestType(q), Encoded(q));
    WriteMsgEnds(c, RequestType(q), Encoded(q));
    assert Upcoming(d) == Upcoming(c) && Pending(d) == Pending(c);
    if r.Ok? && w.Some? {
      WaitKeeps(d, w.value);
    }
  }

  /** The first answer on the stream decides; undisturbed, a call stays without one only if the stream holds none or
      its request does not get out. */
  lemma AskAnswered(c: Conn, q: Request, w: Awaited)
    requires q.Transmit? ==> Clean(q.send.frame)
    ensures var o := Ask(c, q, Some(w));
      && (Answered(o.seen, w, o.res) || Unanswered(o.seen, w, o.res))
      && (Undisturbed(c) && Unanswered(o.seen, w, o.res) ==>
            Upcoming(o.conn) == [] || o.conn.writes == [] || !ValidRequest(q))
  {
    var (d, r) := WriteMsg(c, RequestType(q), Encoded(q));
    WriteMsgEnds(c, RequestType(q), Encoded(q));
    if r.Ok? {
      WaitTakes(d, w);
    }
  }

  // ---------- Any call ----------

  predicate ExcusedAt(r: OpResult, c: Conn, d: Conn) {
    if r.Read? then Excused(r.frame, c, d) else Excused(r.res, c, d)
  }

  function FrameGot(r: OpResult): seq<Frame> { if r.Read? && r.frame.Ok? then [r.frame.value] else [] }

  /** No message is skipped and no frame is lost or invented: what was pending is what the call returned and what is
      pending now. */
  lemma CallKeeps(c: Conn, op: Op)
    requires Callable(op)
    ensures var o := Call(c, op);
      && Upcoming(c) == o.seen + Upcoming(o.conn) && Pending(c) == FrameGot(o.res) + Pending(o.conn)
      && Fewer(c, o.conn) && ExcusedAt(o.res, c, o.conn)
  {
    if Writes(op) {
      AskKeeps(Prepared(c, op), RequestOf(op, c.next), AwaitedBy(op, c.next));
    } else if op.DoRecv? {
      RecvTakes(c);
    } else {
      TryRecvTakes(c);
    }
  }

  lemma CallHonoured(c: Conn, op: Op)
    requires Callable(op)
    ensures var o := Call(c, op);
      var wrote := |o.conn.written| - |c.written|;
      && o.conn.written == c.written + OpBytes(op, c.next, wrote)
      && (Writes(op) ==> Honoured(Piece(RequestOf(op, c.next), wrote), o.res.res, o.seen))
  {
    if Writes(op) {
      AskHonoured(Prepared(c, op), RequestOf(op, c.next), AwaitedBy(op, c.next));
    }
  }

  // ---------- Which result, by what is on the stream ----------

  predicate IsFirstAnswer(msgs: seq<Msg>, i: nat, w: Awaited) {
    i < |msgs| && Answers(msgs[i], w) && forall j :: 0 <= j < i ==> !Answers(msgs[j], w)
  }

  /** Undisturbed, a wait reads exactly up to the first answer on the stream and returns what that says. */
  lemma WaitReturns(c: Conn, w: Awaited, i: nat)
    requires Readable(c.incoming) && IsFirstAnswer(Upcoming(c), i, w)
    ensures var o := Wait(c, w); Says(Upcoming(c)[i], o.res) && o.seen == Upcoming(c)[..i + 1]
  {
    WaitTakes(c, w);
    var o := Wait(c, w);
    FirstSeen(Upcoming(c), o.seen, Upcoming(o.conn), w, o.res, i);
  }

  lemma FirstSeen(all: seq<Msg>, seen: seq<Msg>, rest: seq<Msg>, w: Awaited, r: Res<()>, i: nat)
    requires all == seen + rest && IsFirstAnswer(all, i, w)
    requires Answered(seen, w, r) || (Unanswered(seen, w, r) && rest == [])
    ensures Says(all[i], r) && seen == all[..i + 1]
  {
    assert forall j :: 0 <= j < |seen| ==> seen[j] == all[j];
    if seen != [] {
      var before := seen[..|seen| - 1];
      assert forall j :: 0 <= j < |before| ==> before[j] == all[j];
    }
  }

  /** How often the socket takes bytes. */
  function Takers(writes: seq<WriteEvent>): nat {
    if writes == [] then 0 else (if writes[0].Took? then 1 else 0) + Takers(writes[1..])
  }

  /** An undisturbed socket that takes bytes often enough takes all of them. */
  lemma {:induction false} WriteSucceeds(c: Conn, b: seq<Byte>)
    requires Writable(c.writes) && |b| <= Takers(c.writes)
    ensures var (d, r) := Write(c, b); r.Ok? && Writable(d.writes) && Takers(c.writes) - |b| <= Takers(d.writes)
    decreases |c.writes|
  {
    if b != [] {
      var d := c.(writes := c.writes[1..]);
      if c.writes[0].Took? {
        var k := Min(c.writes[0].n, |b|);
        WriteSucceeds(d.(written := d.written + b[..k]), b[k..]);
      } else {
        WriteSucceeds(d, b);
      }
    }
  }

  lemma WriteMsgSucceeds(c: Conn, msgType: Byte, payload: seq<Byte>)
    requires Writable(c.writes) && |payload| < 0x1_0000_0000 && 5 + |payload| <= Takers(c.writes)
    ensures WriteMsg(c, msgType, payload).1.Ok?
  {
    var header := HeaderOf(msgType, payload);
    WriteSucceeds(c, header);
    WriteSucceeds(Write(c, header).0, payload);
  }

  /** Undisturbed and written out, a call returns what the first answer to its number says, whatever else is on the
      stream, and has read up to that answer. */
  lemma {:induction false} CallReturns(c: Conn, op: Op, i: nat)
    requires Callable(op) && (op.DoSend? || op.DoSetFilters?) && Undisturbed(c)
    requires var q := RequestOf(op, c.next); ValidRequest(q) && |RequestBytes(q)| <= Takers(c.writes)
    requires IsFirstAnswer(Upcoming(c), i, if op.DoSend? then FrameAck(c.next) else FilterAck(c.next))
    ensures var o := Call(c, op); Says(Upcoming(c)[i], o.res.res) && o.seen == Upcoming(c)[..i + 1]
  {
    var q, w := RequestOf(op, c.next), AwaitedBy(op, c.next).value;
    AskReturns(Prepared(c, op), q, w, i);
  }

  lemma {:induction false} AskReturns(c: Conn, q: Request, w: Awaited, i: nat)
    requires Undisturbed(c) && ValidRequest(q) && |RequestBytes(q)| <= Takers(c.writes)
    requires IsFirstAnswer(Upcoming(c), i, w)
    ensures var o := Ask(c, q, Some(w)); Says(Upcoming(c)[i], o.res) && o.seen == Upcoming(c)[..i + 1]
  {
    WriteMsgSucceeds(c, RequestType(q), Encoded(q));
    var d := WriteMsg(c, RequestType(q), Encoded(q)).0;
    assert Upcoming(d) == Upcoming(c);
    WaitReturns(d, w, i);
  }

  // ---------- Which error ----------

  /** The error of a read or a write that makes a call give up. */
  function ReadError(e: ReadEvent): ClientError
    requires ReadFault(e)
  {
    match e
    case Data(_) => Disconnected
    case WouldBlock(TimedOut) => TimeoutError
    case _ => IoError
  }

  function WriteError(e: WriteEvent): ClientError
    requires WriteFault(e)
  {
    match e
    case Took(_) => Disconnected
    case WriteBlocked(TimedOut) => TimeoutError
    case _ => IoError
  }

  lemma IncompleteBefore(b: seq<Byte>, more: seq<Byte>)
    requires ReadHead(b + more).Incomplete?
    ensures ReadHead(b).Incomplete?
  {
    if !ReadHead(b).Incomplete? {
      HeadStable(b, more);
    }
  }

  /** A read that meets a fault before a message is complete ends with the fault's error. */
  lemma {:induction false} FaultEndsRead(c: Conn, k: nat)
    requires k < |c.incoming| && ReadFault(c.incoming[k]) && forall j :: 0 <= j < k ==> !ReadFault(c.incoming[j])
    requires ReadHead(c.bytes + StreamOf(c.incoming[..k])).Incomplete?
    ensures RecvMsg(c).1 == Err(ReadError(c.incoming[k]))
    decreases k
  {
    var e, before := c.incoming[0], c.incoming[..k];
    IncompleteBefore(c.bytes, StreamOf(before));
    if k > 0 {
      var d := ReadMore(c).0;
      assert before[0] == e && before[1..] == d.incoming[..k - 1];
      if e.Data? {
        Associative(c.bytes, e.bytes, StreamOf(before[1..]));
      } else {
        assert [] + StreamOf(before[1..]) == StreamOf(before[1..]);
      }
      FaultEndsRead(d, k - 1);
    }
  }

  /** A front of the stream that does not decode is a protocol error, for good. */
  lemma BadFrontFails(c: Conn)
    requires var h := ReadHead(c.bytes); h.TooLong? || (h.Whole? && DecodeMsg(h.msgType, h.payload).Bad?)
    ensures RecvMsg(c) == (c, Err(ProtocolError))
  {
  }

  function BytesTaken(writes: seq<WriteEvent>): nat {
    if writes == [] then 0 else (if writes[0].Took? then writes[0].n else 0) + BytesTaken(writes[1..])
  }

  /** A write that meets a fault before everything is taken ends with the fault's error. */
  lemma {:induction false} FaultEndsWrite(c: Conn, b: seq<Byte>, k: nat)
    requires k < |c.writes| && WriteFault(c.writes[k]) && forall j :: 0 <= j < k ==> !WriteFault(c.writes[j])
    requires BytesTaken(c.writes[..k]) < |b|
    ensures Write(c, b).1 == Err(WriteError(c.writes[k]))
    ensures Write(c, b).0.written == c.written + b[..BytesTaken(c.writes[..k])]
    decreases k
  {
    var e, before := c.writes[0], c.writes[..k];
    var d := c.(writes := c.writes[1..]);
    if k == 0 {
      assert before == [] && c.written + b[..0] == c.written;
    } else {
      assert before[0] == e && before[1..] == d.writes[..k - 1];
      if e.Took? {
        FaultEndsWrite(d.(written := d.written + b[..e.n]), b[e.n..], k - 1);
        var n := BytesTaken(before[1..]);
        assert c.written + b[..e.n] + b[e.n..][..n] == c.written + b[..e.n + n];
      } else {
        FaultEndsWrite(d, b, k - 1);
      }
    }
  }

  /** `try_recv` passes on a closed or failed socket, even if messages are left in the buffer. */
  lemma TryRecvFails(c: Conn)
    requires c.queue == [] && c.incoming != [] && (c.incoming[0].ReadFailed? || c.incoming[0] == Data([]))
    ensures TryRecv(c).1 == Err(if c.incoming[0].ReadFailed? then IoError else Disconnected)
  {
  }
}
