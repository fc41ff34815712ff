/** Sessions of a client: connecting, then any sequence of calls, their results, and what they read and wrote. */
module ClientSession {
  import opened Basics
  import opened CanTypes
  import opened Wire
  import opened Stream
  import opened Requests
  import opened ClientSpec
  import opened ClientCalls
  import opened Client

  /** How many of the calls take a sequence number. */
  function Count(ops: seq<Op>): (n: nat)
    ensures n <= |ops|
  {
    if ops == [] then 0 else Count(ops[..|ops| - 1]) + if Writes(ops[|ops| - 1]) then 1 else 0
  }

  /** The number of call `k` on a new connection. */
  function Number(ops: seq<Op>, k: nat): (n: nat)
    requires k <= |ops|
    ensures 1 <= n <= k + 1
  {
    1 + Count(ops[..k])
  }

  const LAST_NUMBER: nat := 0xffff_ffff_ffff_ffff

  /** The frames that receiving calls returned. */
  function FramesGot(results: seq<OpResult>): seq<Frame> {
    if results == [] then [] else FramesGot(results[..|results| - 1]) + FrameGot(results[|results| - 1])
  }

  // ---------- Traces ----------

  /** The calls of a session on a new connection with their results, how many bytes each wrote of its request, and
      the messages read. */
  datatype Trace = Trace(ops: seq<Op>, results: seq<OpResult>, wrote: seq<nat>, seen: seq<Msg>)

  /** One result per call, and fewer calls than there are sequence numbers. */
  predicate Shaped(t: Trace) {
    && |t.ops| == |t.results| == |t.wrote| < LAST_NUMBER
    && forall k :: 0 <= k < |t.ops| ==> Callable(t.ops[k]) && (Writes(t.ops[k]) <==> t.results[k].Written?)
  }

  /** What call `k` wrote. */
  function PieceAt(t: Trace, k: nat): Piece
    requires Shaped(t) && k < |t.ops| && Writes(t.ops[k])
  {
    Piece(RequestOf(t.ops[k], Number(t.ops, k)), t.wrote[k])
  }

  /** The frame that call `k` sent. */
  function SentAt(t: Trace, k: nat): SendFrame
    requires Shaped(t) && k < |t.ops| && t.ops[k].DoSend?
  {
    SendFrame(Number(t.ops, k), true, t.ops[k].frame)
  }

  predicate ReturnedOk(t: Trace, k: nat)
    requires Shaped(t) && k < |t.ops|
  {
    t.results[k] == Written(Ok(()))
  }

  /** Everything the calls wrote, one after the other. */
  function BytesOf(ops: seq<Op>, wrote: seq<nat>): seq<Byte>
    requires |ops| == |wrote| < LAST_NUMBER
  {
    if ops == [] then []
    else
      var k := |ops| - 1;
      BytesOf(ops[..k], wrote[..k]) + OpBytes(ops[k], Number(ops, k), wrote[k])
  }

  predicate HonouredAt(t: Trace, k: nat)
    requires Shaped(t) && k < |t.ops|
  {
    Writes(t.ops[k]) ==> Honoured(PieceAt(t, k), t.results[k].res, t.seen)
  }

  /** `written` is exactly what the calls wrote of their requests, numbered 1, 2, ..., and the results are honest. */
  ghost predicate GoodTrace(t: Trace, written: seq<Byte>) {
    && Shaped(t)
    && written == BytesOf(t.ops, t.wrote)
    && forall k :: 0 <= k < |t.ops| ==> HonouredAt(t, k)
  }

  /** Call `k` did not fail part-way through its write. */
  predicate UncutAt(t: Trace, k: nat)
    requires Shaped(t) && k < |t.ops|
  {
    Writes(t.ops[k]) && ValidPiece(PieceAt(t, k)) ==> !Cut(PieceAt(t, k))
  }

  predicate Uncut(t: Trace) { Shaped(t) && forall k :: 0 <= k < |t.ops| ==> UncutAt(t, k) }

  /** What an application can see: every writing call returned Ok or that nobody acknowledged. */
  predicate AllClear(t: Trace) {
    && Shaped(t)
    && forall k :: 0 <= k < |t.ops| && Writes(t.ops[k]) ==> t.results[k].res.Ok? || t.results[k].res == Err(NoAck)
  }

  lemma AllClearIsUncut(t: Trace, written: seq<Byte>)
    requires GoodTrace(t, written) && AllClear(t)
    ensures Uncut(t)
  {
    forall k | 0 <= k < |t.ops|
      ensures UncutAt(t, k)
    {
      assert HonouredAt(t, k);
    }
  }

  // ---------- One more call ----------

  function Extend(t: Trace, op: Op, res: OpResult, wrote: nat, seen: seq<Msg>): Trace {
    Trace(t.ops + [op], t.results + [res], t.wrote + [wrote], t.seen + seen)
  }

  lemma NumberStays(ops: seq<Op>, op: Op, k: nat)
    requires k <= |ops|
    ensures Number(ops + [op], k) == Number(ops, k)
  {
    assert (ops + [op])[..k] == ops[..k];
  }

  lemma HonouredStays(t: Trace, op: Op, res: OpResult, wrote: nat, seen: seq<Msg>, k: nat)
    requires Shaped(t) && Shaped(Extend(t, op, res, wrote, seen)) && k < |t.ops| && HonouredAt(t, k)
    ensures HonouredAt(Extend(t, op, res, wrote, seen), k)
  {
    NumberStays(t.ops, op, k);
  }

  lemma BytesSnoc(ops: seq<Op>, wrote: seq<nat>, op: Op, n: nat)
    requires |ops| == |wrote| < LAST_NUMBER - 1
    ensures BytesOf(ops + [op], wrote + [n]) == BytesOf(ops, wrote) + OpBytes(op, Number(ops, |ops|), n)
  {
    assert (ops + [op])[..|ops|] == ops && (wrote + [n])[..|wrote|] == wrote;
    NumberStays(ops, op, |ops|);
  }

  /** What one call did, as the session records it. */
  ghost predicate Did(
      op: Op, n: U64, n': U64, res: OpResult, wrote: nat, seen: seq<Msg>, before: seq<Byte>, after: seq<Byte>)
  {
    && Callable(op) && (Writes(op) <==> res.Written?)
    && n' == (if Writes(op) then (n + 1) % 0x1_0000_0000_0000_0000 else n)
    && after == before + OpBytes(op, n, wrote)
    && (Writes(op) ==> Honoured(Piece(RequestOf(op, n), wrote), res.res, seen))
  }

  lemma EarlierHonoured(t: Trace, op: Op, res: OpResult, wrote: nat, seen: seq<Msg>)
    requires Shaped(t) && Shaped(Extend(t, op, res, wrote, seen))
    requires forall k :: 0 <= k < |t.ops| ==> HonouredAt(t, k)
    ensures forall k :: 0 <= k < |t.ops| ==> HonouredAt(Extend(t, op, res, wrote, seen), k)
  {
    forall k | 0 <= k < |t.ops|
      ensures HonouredAt(Extend(t, op, res, wrote, seen), k)
    {
      HonouredStays(t, op, res, wrote, seen, k);
    }
  }

  lemma LatestHonoured(t: Trace, op: Op, n: U64, res: OpResult, wrote: nat, seen: seq<Msg>)
    requires Shaped(t) && Shaped(Extend(t, op, res, wrote, seen)) && n == Number(t.ops, |t.ops|)
    requires Writes(op) ==> res.Written? && Honoured(Piece(RequestOf(op, n), wrote), res.res, seen)
    ensures HonouredAt(Extend(t, op, res, wrote, seen), |t.ops|)
  {
    NumberStays(t.ops, op, |t.ops|);
    assert forall m :: m in seen ==> m in t.seen + seen;
  }

  lemma ExtendKeeps(
      t: Trace, op: Op, n: U64, n': U64, res: OpResult, wrote: nat, seen: seq<Msg>, before: seq<Byte>, after: seq<Byte>)
    requires GoodTrace(t, before) && |t.ops| < LAST_NUMBER - 1 && n == Number(t.ops, |t.ops|)
    requires Did(op, n, n', res, wrote, seen, before, after)
    ensures GoodTrace(Extend(t, op, res, wrote, seen), after)
  {
    assert Shaped(Extend(t, op, res, wrote, seen));
    BytesSnoc(t.ops, t.wrote, op, wrote);
    EarlierHonoured(t, op, res, wrote, seen);
    LatestHonoured(t, op, n, res, wrote, seen);
  }

  lemma NextNumber(ops: seq<Op>, op: Op, n: U64, n': U64)
    requires n == Number(ops, |ops|) < LAST_NUMBER && n' == if Writes(op) then (n + 1) % 0x1_0000_0000_0000_0000 else n
    ensures n' == Number(ops + [op], |ops| + 1)
  {
    NumberSnoc(ops, op);
  }

  lemma NumberSnoc(ops: seq<Op>, op: Op)
    ensures Number(ops + [op], |ops| + 1) == Number(ops, |ops|) + if Writes(op) then 1 else 0
  {
    assert (ops + [op])[..|ops| + 1] == ops + [op] && (ops + [op])[..|ops|] == ops && ops[..|ops|] == ops;
  }

  lemma NextAfter(
      t: Trace, op: Op, n: U64, n': U64, res: OpResult, wrote: nat, seen: seq<Msg>, before: seq<Byte>, after: seq<Byte>)
    requires n == Number(t.ops, |t.ops|) && |t.ops| < LAST_NUMBER - 1 && Did(op, n, n', res, wrote, seen, before, after)
    ensures n' == Number(t.ops + [op], |t.ops| + 1)
  {
    NextNumber(t.ops, op, n, n');
  }

  // ---------- Calls one after the other ----------

  predicate AllCallable(ops: seq<Op>) { forall k :: 0 <= k < |ops| ==> Callable(ops[k]) }

  /** The connection after some calls, and their trace. */
  datatype Ran = Ran(conn: Conn, trace: Trace)

  function Run(c: Conn, ops: seq<Op>): (r: Ran)
    requires AllCallable(ops)
    ensures r.trace.ops == ops && |r.trace.results| == |ops|
  {
    if ops == [] then Ran(c, Trace([], [], [], []))
    else
      var n := |ops| - 1;
      var was := Run(c, ops[..n]);
      var o := Call(was.conn, ops[n]);
      Ran(o.conn, Extend(was.trace, ops[n], o.res, |o.conn.written| - |was.conn.written|, o.seen))
  }

  lemma {:induction false} RunMore(c: Conn, ops: seq<Op>, op: Op)
    requires AllCallable(ops) && Callable(op)
    ensures var was, r := Run(c, ops), Run(c, ops + [op]);
      var o := Call(was.conn, op);
      r.conn == o.conn && r.trace.results == was.trace.results + [o.res] && r.trace.seen == was.trace.seen + o.seen
  {
    assert (ops + [op])[..|ops|] == ops;
  }

  lemma {:induction false} CallDid(c: Conn, op: Op) returns (o: Called, wrote: nat)
    requires Callable(op)
    ensures o == Call(c, op) && wrote == |o.conn.written| - |c.written|
    ensures Did(op, c.next, o.conn.next, o.res, wrote, o.seen, c.written, o.conn.written)
  {
    CallHonoured(c, op);
    o := Call(c, op);
    wrote := |o.conn.written| - |c.written|;
  }

  /** The last call, after all the others. */
  lemma {:induction false} RunSnoc(c: Conn, ops: seq<Op>) returns (was: Ran, op: Op, o: Called, wrote: nat, r: Ran)
    requires AllCallable(ops) && ops != []
    ensures was == Run(c, ops[..|ops| - 1]) && op == ops[|ops| - 1] && o == Call(was.conn, op) && r == Run(c, ops)
    ensures r.trace == Extend(was.trace, op, o.res, wrote, o.seen) && r.conn == o.conn
    ensures Did(op, was.conn.next, o.conn.next, o.res, wrote, o.seen, was.conn.written, o.conn.written)
  {
    var n := |ops| - 1;
    was, op, r := Run(c, ops[..n]), ops[n], Run(c, ops);
    o, wrote := CallDid(was.conn, op);
  }

  /** The trace is good, and the connection numbers on from it. */
  ghost predicate GoodRan(r: Ran) {
    GoodTrace(r.trace, r.conn.written) && r.conn.next == Number(r.trace.ops, |r.trace.ops|)
  }

  lemma GoodStep(was: Ran, op: Op, o: Called, wrote: nat, r: Ran)
    requires GoodRan(was) && |was.trace.ops| < LAST_NUMBER - 1
    requires Did(op, was.conn.next, o.conn.next, o.res, wrote, o.seen, was.conn.written, o.conn.written)
    requires r.trace == Extend(was.trace, op, o.res, wrote, o.seen) && r.conn == o.conn
    ensures GoodRan(r)
  {
    assert GoodTrace(r.trace, r.conn.written) by {
      ExtendKeeps(was.trace, op, was.conn.next, o.conn.next, o.res, wrote, o.seen, was.conn.written, o.conn.written);
    }
    assert r.conn.next == Number(r.trace.ops, |r.trace.ops|) by {
      NextAfter(was.trace, op, was.conn.next, o.conn.next, o.res, wrote, o.seen, was.conn.written, o.conn.written);
    }
  }

  /** Any calls on a new connection leave a good trace, as long as the numbers have not wrapped. */
  lemma {:induction false} RunIsGood(c: Conn, ops: seq<Op>)
    requires AllCallable(ops) && c.next == 1 && c.written == [] && |ops| < LAST_NUMBER
    ensures GoodRan(Run(c, ops))
  {
    if ops != [] {
      RunIsGood(c, ops[..|ops| - 1]);
      var was, op, o, wrote, r := RunSnoc(c, ops);
      GoodStep(was, op, o, wrote, r);
    }
  }

  /** The frames returned and the frames still to come are the frames of the whole stream, in order; no message is
      skipped. */
  lemma {:induction false} RunConserves(c: Conn, ops: seq<Op>)
    requires AllCallable(ops)
    ensures var r := Run(c, ops);
      FramesGot(r.trace.results) + Pending(r.conn) == Pending(c) && r.trace.seen + Upcoming(r.conn) == Upcoming(c)
  {
    if ops != [] {
      var n := |ops| - 1;
      var was := Run(c, ops[..n]);
      RunConserves(c, ops[..n]);
      var o := Call(was.conn, ops[n]);
      CallKeeps(was.conn, ops[n]);
      GotSnoc(was.trace.results, o.res);
      Associative(FramesGot(was.trace.results), FrameGot(o.res), Pending(o.conn));
      Associative(was.trace.seen, o.seen, Upcoming(o.conn));
    }
  }

  lemma GotSnoc(results: seq<OpResult>, res: OpResult)
    ensures FramesGot(results + [res]) == FramesGot(results) + FrameGot(res)
  {
    assert (results + [res])[..|results|] == results;
  }

  predicate AllExcused(rs: seq<OpResult>, c: Conn, d: Conn) { forall k :: 0 <= k < |rs| ==> ExcusedAt(rs[k], c, d) }

  lemma ExcusedSnoc(rs: seq<OpResult>, r: OpResult, c: Conn, d: Conn, e: Conn)
    requires Fewer(c, d) && Fewer(d, e) && AllExcused(rs, c, d) && ExcusedAt(r, d, e)
    ensures Fewer(c, e) && AllExcused(rs + [r], c, e)
  {
    forall k | 0 <= k < |rs|
      ensures ExcusedAt(rs[k], c, e)
    {
      assert ExcusedAt(rs[k], c, d);
    }
  }

  /** A call of a session is left waiting only when socket events run out, and fails with a socket error only if the
      socket was disturbed. */
  lemma {:induction false} RunExcused(c: Conn, ops: seq<Op>)
    requires AllCallable(ops)
    ensures var r := Run(c, ops); Fewer(c, r.conn) && AllExcused(r.trace.results, c, r.conn)
  {
    if ops != [] {
      var n := |ops| - 1;
      var was := Run(c, ops[..n]);
      RunExcused(c, ops[..n]);
      var o := Call(was.conn, ops[n]);
      CallKeeps(was.conn, ops[n]);
      ExcusedSnoc(was.trace.results, o.res, c, was.conn, o.conn);
    }
  }

  // ---------- One call of a session ----------

  lemma {:induction false} RunAt(c: Conn, ops: seq<Op>, k: nat)
    requires AllCallable(ops) && k < |ops|
    ensures Run(c, ops).trace.results[k] == Call(Run(c, ops[..k]).conn, ops[k]).res
  {
    var before, last := ops[..|ops| - 1], ops[|ops| - 1];
    assert ops == before + [last];
    RunMore(c, before, last);
    if k < |before| {
      RunAt(c, before, k);
      assert before[..k] == ops[..k];
    }
  }

  /** In an undisturbed session, a `send` or `set_filters` whose request the socket takes returns what the first answer
      to its number among the messages still to come says. */
  lemma {:induction false} ReturnsAsAnswered(c: Conn, ops: seq<Op>, k: nat, was: Conn, q: Request, w: Awaited, i: nat)
      returns (r: OpResult)
    requires AllCallable(ops) && k < |ops| && (ops[k].DoSend? || ops[k].DoSetFilters?) && Undisturbed(c)
    requires was == Run(c, ops[..k]).conn && q == RequestOf(ops[k], was.next)
    requires ValidRequest(q) && |RequestBytes(q)| <= Takers(was.writes)
    requires w == if ops[k].DoSend? then FrameAck(was.next) else FilterAck(was.next)
    requires IsFirstAnswer(Upcoming(was), i, w)
    ensures r == Run(c, ops).trace.results[k] && r.Written? && Says(Upcoming(was)[i], r.res)
  {
    StaysUndisturbed(c, ops, k, was);
    r := ResultAt(c, ops, k, was);
    CallReturns(was, ops[k], i);
  }

  /** The connection before and after call `k`. */
  lemma {:induction false} AroundCall(c: Conn, ops: seq<Op>, k: nat) returns (before: Conn, after: Conn)
    requires AllCallable(ops) && k < |ops|
    ensures before == Run(c, ops[..k]).conn && after == Run(c, ops[..k + 1]).conn && after == Call(before, ops[k]).conn
  {
    assert ops[..k + 1] == ops[..k] + [ops[k]];
    RunMore(c, ops[..k], ops[k]);
    before, after := Run(c, ops[..k]).conn, Run(c, ops[..k + 1]).conn;
  }

  lemma {:induction false} StaysUndisturbed(c: Conn, ops: seq<Op>, k: nat, was: Conn)
    requires AllCallable(ops) && k <= |ops| && Undisturbed(c) && was == Run(c, ops[..k]).conn
    ensures Undisturbed(was)
    decreases k
  {
    if k == 0 {
      assert ops[..0] == [] && was == c;
    } else {
      var before, after := AroundCall(c, ops, k - 1);
      StaysUndisturbed(c, ops, k - 1, before);
      CallUndisturbed(before, ops[k - 1], after);
    }
  }

  lemma CallUndisturbed(c: Conn, op: Op, d: Conn)
    requires Callable(op) && Undisturbed(c) && d == Call(c, op).conn
    ensures Undisturbed(d)
  {
    CallKeeps(c, op);
  }

  lemma {:induction false} ResultAt(c: Conn, ops: seq<Op>, k: nat, was: Conn) returns (r: OpResult)
    requires AllCallable(ops) && k < |ops| && was == Run(c, ops[..k]).conn
    ensures r == Run(c, ops).trace.results[k] == Call(was, ops[k]).res
  {
    RunAt(c, ops, k);
    r := Call(was, ops[k]).res;
  }

  /** The list that the application set last. */
  function LastList(ops: seq<Op>, first: seq<Filter>): seq<Filter> {
    if ops == [] then first
    else if ops[|ops| - 1].DoSetFilters? then ops[|ops| - 1].filters
    else LastList(ops[..|ops| - 1], first)
  }

  lemma CallFilters(c: Conn, op: Op)
    requires Callable(op)
    ensures Call(c, op).conn.filters == if op.DoSetFilters? then op.filters else c.filters
  {
  }

  /** The local copy of the filters is the list set last, acknowledged or not. */
  lemma {:induction false} LocalFilters(c: Conn, ops: seq<Op>)
    requires AllCallable(ops)
    ensures Run(c, ops).conn.filters == LastList(ops, c.filters)
  {
    if ops != [] {
      var n := |ops| - 1;
      LocalFilters(c, ops[..n]);
      CallFilters(Run(c, ops[..n]).conn, ops[n]);
    }
  }

  // ---------- The session as a program ----------

  /** Any sequence of calls. */
  method CallAll(c: UnixCan, ops: seq<Op>) returns (results: seq<OpResult>)
    requires c.Valid() && AllCallable(ops)
    modifies c
    ensures c.Valid() && c.Now() == Run(old(c.Now()), ops).conn && results == Run(old(c.Now()), ops).trace.results
  {
    results := [];
    for k := 0 to |ops|
      invariant c.Valid()
      invariant c.Now() == Run(old(c.Now()), ops[..k]).conn && results == Run(old(c.Now()), ops[..k]).trace.results
    {
      var res := Perform(c, ops[k]);
      results := results + [res];
      assert ops[..k + 1][..k] == ops[..k];
    }
    assert ops[..|ops|] == ops;
  }

  /** What comes of connecting and, if that succeeds, making the calls. */
  datatype Session = Session(connected: bool, greeting: seq<Msg>, trace: Trace, conn: Conn)

  function Play(incoming: seq<ReadEvent>, writes: seq<WriteEvent>, ops: seq<Op>): (s: Session)
    requires AllCallable(ops)
    ensures s.connected ==> s.trace.ops == ops
  {
    var o := Wait(NewConn(incoming, writes), Greeting);
    if o.res.Ok? then
      var r := Run(o.conn, ops);
      Session(true, o.seen, r.trace, r.conn)
    else Session(false, o.seen, Trace([], [], [], []), o.conn)
  }

  /** `connect`. */
  method Connect(incoming: seq<ReadEvent>, writes: seq<WriteEvent>) returns (c: UnixCan, r: Res<()>)
    ensures fresh(c) && c.Valid()
    ensures var o := Wait(NewConn(incoming, writes), Greeting); c.Now() == o.conn && r == o.res
  {
    c := new UnixCan(incoming, writes);
    r := c.WaitFor(Greeting);
  }

  /** The client's code: connect, then make the calls. */
  method PlaySession(incoming: seq<ReadEvent>, writes: seq<WriteEvent>, ops: seq<Op>)
      returns (connected: bool, results: seq<OpResult>, written: seq<Byte>)
    requires AllCallable(ops)
    ensures var s := Play(incoming, writes, ops);
      connected == s.connected && results == s.trace.results && written == s.conn.written
  {
    var c, r := Connect(incoming, writes);
    connected, results := r.Ok?, [];
    if connected {
      results := CallAll(c, ops);
    }
    written := c.written;
  }

  lemma NewUpcoming(incoming: seq<ReadEvent>, writes: seq<WriteEvent>)
    ensures Upcoming(NewConn(incoming, writes)) == DecodeAll(StreamOf(incoming))
    ensures Pending(NewConn(incoming, writes)) == FramesOf(DecodeAll(StreamOf(incoming)))
  {
    assert [] + StreamOf(incoming) == StreamOf(incoming);
  }

  /** Connecting keeps frames that arrive before the greeting; undisturbed, it succeeds exactly if the greeting is on
      the stream. */
  lemma {:induction false} ConnectsIffGreeted(incoming: seq<ReadEvent>, writes: seq<WriteEvent>)
    ensures var o := Wait(NewConn(incoming, writes), Greeting);
      && o.seen + Upcoming(o.conn) == DecodeAll(StreamOf(incoming))
      && Pending(o.conn) == FramesOf(DecodeAll(StreamOf(incoming)))
      && o.conn.next == 1 && o.conn.written == [] && o.conn.writes == writes
      && (o.res.Ok? ==> Hello in o.seen)
      && (Readable(incoming) ==> (o.res.Ok? <==> Hello in DecodeAll(StreamOf(incoming))))
  {
    var c := NewConn(incoming, writes);
    NewUpcoming(incoming, writes);
    WaitKeeps(c, Greeting);
    WaitTakes(c, Greeting);
    var o := Wait(c, Greeting);
    if Answered(o.seen, Greeting, o.res) {
      AnswerSeen(o.seen, Greeting, o.res);
    } else if Readable(incoming) {
      assert o.seen + [] == o.seen;
      assert Hello !in o.seen;
    }
  }

  /** Every session of the client: it connects exactly if it is greeted, its trace is good and starts after the
      greeting, and the frames it returned and those it still holds are the frames of the stream, in order. */
  lemma {:induction false} PlayIsGood(incoming: seq<ReadEvent>, writes: seq<WriteEvent>, ops: seq<Op>)
    requires AllCallable(ops) && |ops| < LAST_NUMBER
    ensures var s := Play(incoming, writes, ops);
      var msgs := DecodeAll(StreamOf(incoming));
      && (Readable(incoming) ==> (s.connected <==> Hello in msgs))
      && (s.connected ==> GoodTrace(s.trace, s.conn.written) && Hello in s.greeting)
      && (s.greeting + s.trace.seen) + Upcoming(s.conn) == msgs
      && FramesGot(s.trace.results) + Pending(s.conn) == FramesOf(msgs)
  {
    ConnectsIffGreeted(incoming, writes);
    var o := Wait(NewConn(incoming, writes), Greeting);
    if o.res.Ok? {
      RunIsGood(o.conn, ops);
      RunConserves(o.conn, ops);
      var r := Run(o.conn, ops);
      Associative(o.seen, r.trace.seen, Upcoming(r.conn));
    } else {
      assert o.seen + [] == o.seen;
    }
  }

  // ---------- What an uncut session has on the stream ----------

  /** The requests that went out whole. */
  function WholeRequests(t: Trace, n: nat): (qs: seq<Request>)
    requires Shaped(t) && n <= |t.ops|
    ensures forall i :: 0 <= i < |qs| ==> ValidRequest(qs[i])
    ensures forall q :: q in qs ==> exists k :: 0 <= k < n && WentOut(t, k, q)
  {
    if n == 0 then []
    else
      var k := n - 1;
      if Writes(t.ops[k]) && ValidPiece(PieceAt(t, k)) && Complete(PieceAt(t, k)) then
        assert WentOut(t, k, PieceAt(t, k).request);
        WholeRequests(t, k) + [PieceAt(t, k).request]
      else WholeRequests(t, k)
  }

  predicate WentOut(t: Trace, k: nat, q: Request)
    requires Shaped(t) && k < |t.ops|
  {
    Writes(t.ops[k]) && ValidPiece(PieceAt(t, k)) && Complete(PieceAt(t, k)) && PieceAt(t, k).request == q
  }

  lemma BytesUpTo(t: Trace, k: nat)
    requires Shaped(t) && k < |t.ops|
    ensures BytesOf(t.ops[..k + 1], t.wrote[..k + 1])
         == BytesOf(t.ops[..k], t.wrote[..k]) + OpBytes(t.ops[k], Number(t.ops, k), t.wrote[k])
  {
    assert t.ops[..k + 1] == t.ops[..k] + [t.ops[k]] && t.wrote[..k + 1] == t.wrote[..k] + [t.wrote[k]];
    assert Number(t.ops[..k], k) == Number(t.ops, k) by {
      assert t.ops[..k][..k] == t.ops[..k];
    }
    BytesSnoc(t.ops[..k], t.wrote[..k], t.ops[k], t.wrote[k]);
  }

  /** One call that was not cut off: its whole request, or nothing. */
  lemma UncutCall(t: Trace, k: nat)
    requires Shaped(t) && k < |t.ops| && UncutAt(t, k)
    ensures OpBytes(t.ops[k], Number(t.ops, k), t.wrote[k]) ==
      if Writes(t.ops[k]) && ValidPiece(PieceAt(t, k)) && Complete(PieceAt(t, k))
      then RequestBytes(PieceAt(t, k).request) else []
  {
  }

  /** As long as nothing was cut off, the stream is exactly the requests that went out whole. */
  lemma {:induction false} UncutIsWhole(t: Trace, n: nat)
    requires Shaped(t) && n <= |t.ops| && Uncut(t)
    ensures BytesOf(t.ops[..n], t.wrote[..n]) == AllBytes(WholeRequests(t, n))
  {
    if n > 0 {
      var k := n - 1;
      UncutIsWhole(t, k);
      BytesUpTo(t, k);
      assert UncutAt(t, k);
      UncutCall(t, k);
      WholeSnoc(t, k, BytesOf(t.ops[..k], t.wrote[..k]));
    }
  }

  lemma WholeSnoc(t: Trace, k: nat, b: seq<Byte>)
    requires Shaped(t) && k < |t.ops| && b == AllBytes(WholeRequests(t, k))
    ensures AllBytes(WholeRequests(t, k + 1)) == b +
      if Writes(t.ops[k]) && ValidPiece(PieceAt(t, k)) && Complete(PieceAt(t, k))
      then RequestBytes(PieceAt(t, k).request) else []
  {
    assert b + [] == b;
    if Writes(t.ops[k]) && ValidPiece(PieceAt(t, k)) && Complete(PieceAt(t, k)) {
      AllBytesSnoc(WholeRequests(t, k), PieceAt(t, k).request);
    }
  }

  lemma {:induction false} CountGrows(ops: seq<Op>, i: nat, j: nat)
    requires i <= j <= |ops|
    ensures Count(ops[..i]) <= Count(ops[..j])
  {
    if i < j {
      CountGrows(ops, i, j - 1);
      assert ops[..j][..j - 1] == ops[..j - 1];
    }
  }

  /** Different writing calls have different numbers. */
  lemma {:induction false} NumbersDiffer(ops: seq<Op>, i: nat, j: nat)
    requires i < j < |ops| && Writes(ops[i])
    ensures Number(ops, i) < Number(ops, j)
  {
    assert ops[..i + 1][..i] == ops[..i];
    CountGrows(ops, i + 1, j);
  }
}
