/** After a cut-off write both promises of `BusMeaning` can fail, in sessions of the client's own code; and they can be
    relied on exactly if the application stops using such a connection. */
module Trust {
  import opened Basics
  import opened CanTypes
  import opened Wire
  import opened Stream
  import opened Requests
  import opened Server
  import opened ServerReader
  import opened BusMeaning
  import opened CutOffWrites
  import C = ClientSpec
  import D = ClientCalls
  import K = ClientSession

  // ---------- The bus ----------

  lemma AfterSnoc(cmds: seq<Command>, c: Command)
    ensures After(cmds + [c]) == Handle(After(cmds), c)
  {
    assert Init(cmds + [c]) == cmds;
  }

  const JOINED: seq<Command> := [AddClient(1)] + [AddClient(2)]

  /** Both clients are there, without filters. */
  lemma BothJoined()
    ensures Pair(After(JOINED)) && NoAcks(Queue(After(JOINED), 1))
  {
    AfterSnoc([], AddClient(1));
    assert [] + [AddClient(1)] == [AddClient(1)];
    AfterSnoc([AddClient(1)], AddClient(2));
    QueueGrows(After([]), AddClient(1), 1);
    QueueGrows(After([AddClient(1)]), AddClient(2), 1);
  }

  /** The bytes the server has read: `b` of client 1, nothing of the others. */
  function Only1(b: seq<Byte>): ClientId -> (seq<Byte>, bool) {
    (id: ClientId) => if id == 1 then (b, false) else ([], false)
  }

  /** Two clients without filters. */
  predicate Pair(b: Bus) { b.clients == map[1 := [], 2 := []] && b.pending == map[] }

  lemma SendKeepsPair(b: Bus, id: ClientId, s: SendFrame)
    requires Pair(b)
    ensures Pair(Handle(b, Send(id, s)))
  {
  }

  lemma SilentInPair(b: Bus, s: SendFrame)
    requires Pair(b) && !s.expectAck && NoAcks(Queue(b, 1))
    ensures NoAcks(Queue(Handle(b, Send(1, s)), 1))
  {
    QueueGrows(b, Send(1, s), 1);
  }

  lemma AckInPair(b: Bus, s: SendFrame)
    requires Pair(b) && s.expectAck && NoAcks(Queue(b, 1))
    ensures OneAck(Queue(Handle(b, Send(1, s)), 1), s.seqNo)
  {
    assert b.clients.Keys == {1, 2};
    QueueGrows(b, Send(1, s), 1);
    assert AckMsg(s.seqNo, ACK_OK) in Added(b, Send(1, s), 1);
  }

  lemma {:induction false} TwoSends(cmds: seq<Command>, s1: SendFrame, s2: SendFrame)
    requires Pair(After(cmds)) && NoAcks(Queue(After(cmds), 1)) && !s1.expectAck && s2.expectAck
    ensures OneAck(Queue(After(cmds + [Send(1, s1)] + [Send(1, s2)]), 1), s2.seqNo)
  {
    AfterSnoc(cmds, Send(1, s1));
    AfterSnoc(cmds + [Send(1, s1)], Send(1, s2));
    SendKeepsPair(After(cmds), 1, s1);
    SilentInPair(After(cmds), s1);
    AckInPair(After(cmds + [Send(1, s1)]), s2);
  }

  lemma ReadersSnoc(cmds: seq<Command>, c: Command, sources: ClientId -> (seq<Byte>, bool))
    requires FreshIds(cmds) && FromReaders(cmds, sources)
    requires (c.Send? || c.SetFilters?) && FromReader(c, sources(c.id))
    ensures FreshIds(cmds + [c]) && FromReaders(cmds + [c], sources)
  {
  }

  lemma JoinedFromReaders(sources: ClientId -> (seq<Byte>, bool))
    ensures FreshIds(JOINED) && FromReaders(JOINED, sources)
  {
    assert JOINED[0] == AddClient(1) && JOINED[1] == AddClient(2);
  }

  ghost predicate WasOnTheBus(cmds: seq<Command>, id: ClientId, s: SendFrame) { exists k :: OnTheBus(cmds, k, id, s) }

  lemma NeverHandled(cmds: seq<Command>, id: ClientId, s: SendFrame)
    requires Send(id, s) !in cmds
    ensures !WasOnTheBus(cmds, id, s)
  {
  }

  /** The two clients, joined and quiet. */
  ghost predicate Quiet(base: seq<Command>, sources: ClientId -> (seq<Byte>, bool)) {
    && FreshIds(base) && FromReaders(base, sources) && Pair(After(base)) && NoAcks(Queue(After(base), 1))
    && forall k :: 0 <= k < |base| ==> !base[k].Send?
  }

  lemma SomeQuietBus(sources: ClientId -> (seq<Byte>, bool)) returns (base: seq<Command>)
    ensures Quiet(base, sources)
  {
    base := JOINED;
    JoinedFromReaders(sources);
    BothJoined();
  }

  /** The server reads two sends, and the ack of the second is queued. */
  lemma {:induction false} ToldOfAck(
      base: seq<Command>, sources: ClientId -> (seq<Byte>, bool), s1: SendFrame, s2: SendFrame)
    requires FromReader(Send(1, s1), sources(1)) && FromReader(Send(1, s2), sources(1))
    requires Quiet(base, sources) && !s1.expectAck && s2.expectAck
    ensures var cmds := base + [Send(1, s1)] + [Send(1, s2)];
      && Wired(cmds, sources, 1, QueueBytes(cmds, 1)) && OneAck(Queue(After(cmds), 1), s2.seqNo)
  {
    ReadersSnoc(base, Send(1, s1), sources);
    ReadersSnoc(base + [Send(1, s1)], Send(1, s2), sources);
    TwoSends(base, s1, s2);
  }

  /** A frame that is neither of the two sends was never on the bus. */
  lemma NeitherOfTwo(base: seq<Command>, s1: SendFrame, s2: SendFrame, s: SendFrame)
    requires (forall k :: 0 <= k < |base| ==> !base[k].Send?) && s1 != s && s2 != s
    ensures !WasOnTheBus(base + [Send(1, s1)] + [Send(1, s2)], 1, s)
  {
    NeverHandled(base + [Send(1, s1)] + [Send(1, s2)], 1, s);
  }

  /** What the server reads of the two calls when the carried request is `q`. */
  lemma {:induction false} BothRead(x: StdRaw, q: Request) returns (phantom: SendFrame)
    requires ValidRequest(q) && Fits(q) && |RequestBytes(q)| <= 60
    ensures FromReader(Send(1, phantom), (BothCalls(x, q), false))
      && FromReader(CommandOf(1, q), (BothCalls(x, q), false))
    ensures !phantom.expectAck
  {
    phantom := SmuggledRequest(1, x, q);
    var cs := [Send(1, phantom)] + [CommandOf(1, q)];
    assert cs[0] == Send(1, phantom) && cs[1] == CommandOf(1, q);
  }

  /** Everything queued for client 1, as it arrives: the greeting, and then `b`. */
  lemma {:induction false} ArrivesAfterGreeting(cmds: seq<Command>, sources: ClientId -> (seq<Byte>, bool), m: Msg)
      returns (b: seq<Byte>)
    requires Wired(cmds, sources, 1, QueueBytes(cmds, 1)) && m in Queue(After(cmds), 1) && m != Hello
    ensures Wired(cmds, sources, 1, C.StreamOf(TwoReads(b))) && b != []
    ensures Queue(After(cmds), 1) == [Hello] + DecodeAll(b) && m in DecodeAll(b)
    ensures DecodeAll(C.StreamOf(TwoReads(b))) == [Hello] + DecodeAll(b)
  {
    var q := Queue(After(cmds), 1);
    ReadersAreClean(cmds, sources);
    QueuesSendable(cmds, 1);
    GreetingFirst(cmds, 1);
    AfterFirst(q, m);
    b := SplitOff(q);
    TwoReadsStream(b);
  }

  lemma {:induction false} SplitOff(q: seq<Msg>) returns (b: seq<Byte>)
    requires AllSendable(q) && |q| > 1 && q == [Hello] + q[1..]
    ensures EncodeStream(q) == GREETING + b && b != [] && DecodeAll(b) == q[1..] && DecodeAll(GREETING + b) == q
  {
    b := EncodeStream(q[1..]);
    StreamRoundTrip(q[1..], []);
    StreamRoundTrip(q, []);
    assert b + [] == b && EncodeStream(q) + [] == EncodeStream(q);
    assert q + DecodeAll([]) == q && q[1..] + DecodeAll([]) == q[1..];
    assert DecodeAll([]) == [];
  }

  lemma AfterFirst(q: seq<Msg>, m: Msg)
    requires m in q && m != Hello && q[0] == Hello
    ensures q == [Hello] + q[1..] && m in q[1..]
  {
    var i :| 0 <= i < |q| && q[i] == m;
    assert q[1..][i - 1] == m;
  }

  // ---------- An Ok for a frame that never was on the bus ----------

  lemma {:induction false} AckForAnother(x: StdRaw, g: Frame, q: Request, s: SendFrame)
      returns (cmds: seq<Command>, b: seq<Byte>)
    requires Clean(g) && g.dlc <= 41 && q == SmallSend(g) && s == SendFrame(2, true, Carrier(x, q))
    ensures Wired(cmds, Only1(BothCalls(x, q)), 1, C.StreamOf(TwoReads(b))) && !WasOnTheBus(cmds, 1, s)
    ensures b != [] && OneAck(DecodeAll(b), 2)
  {
    var sources := Only1(BothCalls(x, q));
    var phantom := BothRead(x, q);
    var base := SomeQuietBus(sources);
    ToldOfAck(base, sources, phantom, q.send);
    NeitherOfTwo(base, phantom, q.send, s);
    cmds := base + [Send(1, phantom)] + [Send(1, q.send)];
    b := ArrivesAfterGreeting(cmds, sources, AckMsg(2, ACK_OK));
  }

  /** A session in which the second `send` returns Ok on an ack that was for another frame; its own was never handled.
      The frame `g` that the server did handle can be any that fits. */
  lemma {:induction false} SendOkCanLie(x: StdRaw, g: Frame, q: Request)
      returns (cmds: seq<Command>, b: seq<Byte>, s: K.Session)
    requires Clean(g) && g.dlc <= 41 && q == SmallSend(g)
    ensures s == CutSession(x, q, b) && s.connected && s.trace.ops == CutOps(x, q)
    ensures Wired(cmds, Only1(s.conn.written), 1, C.StreamOf(TwoReads(b)))
    ensures |s.trace.results| == 2 && s.trace.results[1] == C.Written(C.Ok(()))
    ensures !WasOnTheBus(cmds, 1, SendFrame(2, true, Carrier(x, q)))
  {
    cmds, b := AckForAnother(x, g, q, SendFrame(2, true, Carrier(x, q)));
    s := CutSessionReads(x, q, b);
  }

  // ---------- Filters that were never requested ----------

  lemma FiltersInPair(b: Bus, n: U64, f: SendFrame)
    requires Pair(b) && n != 0
    ensures var c := Handle(Handle(b, SetFilters(1, n, [])), Send(2, f));
      Queue(c, 1) == Queue(b, 1) + [FiltersAckMsg(n, ACK_OK)] + [FrameMsg(f.frame)]
  {
    var c := Handle(b, SetFilters(1, n, []));
    QueueGrows(b, SetFilters(1, n, []), 1);
    QueueGrows(c, Send(2, f), 1);
    assert Added(c, Send(2, f), 1) == [FrameMsg(f.frame)];
  }

  /** A filter ack and then a frame at the end, and no ack of a frame. */
  predicate FiltersThenFrame(q: seq<Msg>, n: U64, f: Frame) {
    |q| >= 2 && q[|q| - 1] == FrameMsg(f) && q[|q| - 2] == FiltersAckMsg(n, ACK_OK) && NoAcks(q)
  }

  lemma AtTheEnd(q: seq<Msg>, n: U64, f: Frame)
    requires NoAcks(q)
    ensures FiltersThenFrame(q + [FiltersAckMsg(n, ACK_OK)] + [FrameMsg(f)], n, f)
  {
  }

  /** A filter list smuggled in under number `n`, and a frame of the other client after it. */
  lemma {:induction false} SmuggledFilters(cmds: seq<Command>, s1: SendFrame, n: U64, f: SendFrame)
    requires Pair(After(cmds)) && n != 0 && NoAcks(Queue(After(cmds), 1)) && !s1.expectAck
    ensures FiltersThenFrame(
      Queue(After(cmds + [Send(1, s1)] + [SetFilters(1, n, [])] + [Send(2, f)]), 1), n, f.frame)
  {
    var c1, c2, c3 := Send(1, s1), SetFilters(1, n, []), Send(2, f);
    AfterSnoc(cmds, c1);
    AfterSnoc(cmds + [c1], c2);
    AfterSnoc(cmds + [c1] + [c2], c3);
    SendKeepsPair(After(cmds), 1, s1);
    SilentInPair(After(cmds), s1);
    FiltersInPair(After(cmds + [c1]), n, f);
    AtTheEnd(Queue(After(cmds + [c1]), 1), n, f.frame);
  }

  /** The bytes of client 2 who sends one frame, next to those of client 1. */
  function Both(b: seq<Byte>, b2: seq<Byte>): ClientId -> (seq<Byte>, bool) {
    (id: ClientId) => if id == 1 then (b, false) else (b2, false)
  }

  lemma ReadersOfThree(
      base: seq<Command>, sources: ClientId -> (seq<Byte>, bool), c1: Command, c2: Command, c3: Command)
    requires FreshIds(base) && FromReaders(base, sources)
    requires forall c :: c in {c1, c2, c3} ==> (c.Send? || c.SetFilters?) && FromReader(c, sources(c.id))
    ensures FreshIds(base + [c1] + [c2] + [c3]) && FromReaders(base + [c1] + [c2] + [c3], sources)
  {
    ReadersSnoc(base, c1, sources);
    ReadersSnoc(base + [c1], c2, sources);
    ReadersSnoc(base + [c1] + [c2], c3, sources);
  }

  /** Two commands read from the first client and one from the second: what is then queued for the first. */
  lemma {:induction false} ToldOfFilters(
      base: seq<Command>, sources: ClientId -> (seq<Byte>, bool), s1: SendFrame, n: U64, f: SendFrame)
      returns (cmds: seq<Command>)
    requires FromReader(Send(1, s1), sources(1)) && FromReader(SetFilters(1, n, []), sources(1))
    requires FromReader(Send(2, f), sources(2)) && Quiet(base, sources) && n != 0 && !s1.expectAck
    ensures Wired(cmds, sources, 1, QueueBytes(cmds, 1))
    ensures FiltersThenFrame(Queue(After(cmds), 1), n, f.frame)
  {
    cmds := base + [Send(1, s1)] + [SetFilters(1, n, [])] + [Send(2, f)];
    assert Wired(cmds, sources, 1, QueueBytes(cmds, 1)) by {
      ReadersOfThree(base, sources, Send(1, s1), SetFilters(1, n, []), Send(2, f));
    }
    SmuggledFilters(base, s1, n, f);
  }

  /** What the server reads when the carried request is an empty filter list, and client 2 sends a frame. */
  lemma {:induction false} FiltersRead(x: StdRaw, n: U64, f: SendFrame, sources: ClientId -> (seq<Byte>, bool))
      returns (phantom: SendFrame)
    requires Clean(f.frame) && sources(1) == (BothCalls(x, SmallFilter(n)), false)
      && sources(2) == (RequestBytes(Transmit(f)), false)
    ensures FromReader(Send(1, phantom), sources(1)) && FromReader(SetFilters(1, n, []), sources(1))
      && FromReader(Send(2, f), sources(2))
    ensures !phantom.expectAck
  {
    phantom := BothRead(x, SmallFilter(n));
    assert AllOnWire([]) == [];
    ReadLast(2, Transmit(f));
  }

  /** The messages `[Hello] + rest`: at the end the ack of filters under `n` and a frame, and no ack of a frame. */
  predicate EndsInFrame(msgs: seq<Msg>, rest: seq<Msg>, n: U64, f: Frame) {
    && msgs == [Hello] + rest && NoAcks(rest) && FiltersThenFrame(msgs, n, f)
    && LastOk(msgs[..|msgs| - 1]) == Some(|msgs| - 2)
  }

  lemma FrameAtEnd(msgs: seq<Msg>, rest: seq<Msg>, n: U64, f: Frame)
    requires msgs == [Hello] + rest && FiltersThenFrame(msgs, n, f)
    ensures EndsInFrame(msgs, rest, n, f)
  {
    LastIsOk(msgs[..|msgs| - 1]);
    forall i | 0 <= i < |rest|
      ensures !rest[i].AckMsg?
    {
      assert rest[i] == msgs[i + 1];
    }
  }

  lemma LastIsOk(o: seq<Msg>)
    requires o != [] && Last(o).FiltersAckMsg? && Last(o).status == ACK_OK
    ensures LastOk(o) == Some(|o| - 1)
  {
  }

  lemma {:induction false} FiltersTold(
      n: U64, f: SendFrame, sources: ClientId -> (seq<Byte>, bool), phantom: SendFrame)
      returns (cmds: seq<Command>, b: seq<Byte>)
    requires FromReader(Send(1, phantom), sources(1)) && FromReader(SetFilters(1, n, []), sources(1))
    requires FromReader(Send(2, f), sources(2)) && n != 0 && !phantom.expectAck
    ensures Wired(cmds, sources, 1, C.StreamOf(TwoReads(b))) && b != []
    ensures EndsInFrame(DecodeAll(C.StreamOf(TwoReads(b))), DecodeAll(b), n, f.frame)
  {
    var base := SomeQuietBus(sources);
    cmds := ToldOfFilters(base, sources, phantom, n, f);
    b := ArrivesAfterGreeting(cmds, sources, FrameMsg(f.frame));
    FrameAtEnd(DecodeAll(C.StreamOf(TwoReads(b))), DecodeAll(b), n, f.frame);
  }

  lemma {:induction false} ToldAfterCut(x: StdRaw, n: U64, f: SendFrame, sources: ClientId -> (seq<Byte>, bool))
      returns (cmds: seq<Command>, b: seq<Byte>)
    requires n != 0 && Clean(f.frame) && sources(1) == (BothCalls(x, SmallFilter(n)), false)
    requires sources(2) == (RequestBytes(Transmit(f)), false)
    ensures Wired(cmds, sources, 1, C.StreamOf(TwoReads(b))) && b != []
    ensures EndsInFrame(DecodeAll(C.StreamOf(TwoReads(b))), DecodeAll(b), n, f.frame)
  {
    var phantom := FiltersRead(x, n, f, sources);
    cmds, b := FiltersTold(n, f, sources, phantom);
  }

  /** A session of two sends that is told of filters, under any number: it has read their ack and a frame after it. */
  lemma {:induction false} FiltersCanLie(x: StdRaw, n: U64, q: Request, f: SendFrame)
      returns (cmds: seq<Command>, sources: ClientId -> (seq<Byte>, bool), b: seq<Byte>, s: K.Session)
    requires n != 0 && q == SmallFilter(n) && Clean(f.frame)
    ensures s == CutSession(x, q, b) && s.connected && s.greeting == [Hello] && s.trace.ops == CutOps(x, q)
    ensures Wired(cmds, sources, 1, C.StreamOf(TwoReads(b))) && sources(1).0 == s.conn.written
    ensures EndsInFrame(DecodeAll(C.StreamOf(TwoReads(b))), s.trace.seen, n, f.frame)
  {
    sources := Both(BothCalls(x, q), RequestBytes(Transmit(f)));
    cmds, b := ToldAfterCut(x, n, f, sources);
    s := CutSessionReads(x, q, b);
  }

  // ---------- The exact condition ----------

  /** How careful an application is with its connection: it goes on whatever happened, it stops when a call has failed
      part-way through a write, or it stops when a writing call has returned anything but Ok or no-ack. */
  datatype Care = Careless | StopsAtCut | StopsAtError

  predicate Allows(care: Care, t: K.Trace) {
    match care
    case Careless => true
    case StopsAtCut => K.Uncut(t)
    case StopsAtError => K.AllClear(t)
  }

  /** A session that the client's code plays, next to a server that has read what it wrote, or a part of that. */
  ghost predicate IsSession(
      care: Care, cmds: seq<Command>, sources: ClientId -> (seq<Byte>, bool), id: ClientId,
      incoming: seq<C.ReadEvent>, writes: seq<C.WriteEvent>, ops: seq<C.Op>)
  {
    && K.AllCallable(ops) && |ops| < K.LAST_NUMBER && Wired(cmds, sources, id, C.StreamOf(incoming))
    && var s := K.Play(incoming, writes, ops);
       s.connected && sources(id).0 <= s.conn.written && Allows(care, s.trace)
  }

  /** Every Ok of such a session means that the frame was on the bus. */
  ghost predicate Trustworthy(care: Care) {
    forall cmds, sources, id, incoming, writes, ops :: IsSession(care, cmds, sources, id, incoming, writes, ops) ==>
      OkSendsOnTheBus(cmds, id, K.Play(incoming, writes, ops).trace)
  }

  /** What a careful session is like. */
  lemma {:induction false} CarefulSession(
      care: Care, cmds: seq<Command>, sources: ClientId -> (seq<Byte>, bool), id: ClientId,
      incoming: seq<C.ReadEvent>, writes: seq<C.WriteEvent>, ops: seq<C.Op>) returns (s: K.Session)
    requires care != Careless && IsSession(care, cmds, sources, id, incoming, writes, ops)
    ensures s == K.Play(incoming, writes, ops) && K.GoodTrace(s.trace, s.conn.written) && K.Uncut(s.trace)
    ensures s.greeting + s.trace.seen <= DecodeAll(C.StreamOf(incoming))
  {
    s := K.Play(incoming, writes, ops);
    K.PlayIsGood(incoming, writes, ops);
    if care == StopsAtError {
      K.AllClearIsUncut(s.trace, s.conn.written);
    }
  }

  lemma CarefulIsTrustworthy(care: Care)
    requires care != Careless
    ensures Trustworthy(care)
  {
    forall cmds, sources, id, incoming, writes, ops | IsSession(care, cmds, sources, id, incoming, writes, ops)
      ensures OkSendsOnTheBus(cmds, id, K.Play(incoming, writes, ops).trace)
    {
      var s := CarefulSession(care, cmds, sources, id, incoming, writes, ops);
      AllOkSends(cmds, sources, id, C.StreamOf(incoming), s.trace, s.conn.written, s.greeting);
    }
  }

  /** The Ok of `send` can be trusted exactly if the application does not go on using a connection on which a call has
      failed part-way through a write; to stop at any error is enough for that. */
  lemma TrustworthyIff(care: Care)
    ensures Trustworthy(care) <==> care != Careless
  {
    if care != Careless {
      CarefulIsTrustworthy(care);
    } else {
      var g := Frame(Standard(0x7ff), Zeros(MAX_DATA_LEN), 0, false);
      var q := SmallSend(g);
      var cmds, b, s := SendOkCanLie(0, g, q);
      CutIsSession(cmds, Only1(s.conn.written), 0, q, b, s);
      NotAllOnTheBus(cmds, 0, q, s.trace);
    }
  }

  lemma CutIsSession(
      cmds: seq<Command>, sources: ClientId -> (seq<Byte>, bool), x: StdRaw, q: Request, b: seq<Byte>, s: K.Session)
    requires ValidRequest(q) && |RequestBytes(q)| <= 60 && s == CutSession(x, q, b) && s.connected
    requires Wired(cmds, sources, 1, C.StreamOf(TwoReads(b))) && sources(1).0 == s.conn.written
    ensures IsSession(
      Careless, cmds, sources, 1, TwoReads(b), CutWrites(SEND_FRAME_HDR_LEN + Carrier(x, q).dlc), CutOps(x, q))
  {
  }

  lemma NotAllOnTheBus(cmds: seq<Command>, x: StdRaw, q: Request, t: K.Trace)
    requires ValidRequest(q) && |RequestBytes(q)| <= 60 && t.ops == CutOps(x, q)
    requires |t.results| == 2 && t.results[1] == C.Written(C.Ok(()))
    requires !WasOnTheBus(cmds, 1, SendFrame(2, true, Carrier(x, q)))
    ensures !OkSendsOnTheBus(cmds, 1, t)
  {
    if OkSendsOnTheBus(cmds, 1, t) {
      TwoNumbers(t.ops[0], t.ops[1]);
      assert K.SentAt(t, 1) == SendFrame(2, true, Carrier(x, q)) && K.ReturnedOk(t, 1);
    }
  }

  lemma TwoNumbers(a: C.Op, b: C.Op)
    requires C.Writes(a) && C.Writes(b)
    ensures K.Number([a, b], 0) == 1 && K.Number([a, b], 1) == 2
  {
    assert [a, b][..0] == [] && [a, b][..1] == [a] && [a][..0] == [];
  }

  /** Every frame of such a session passes the list it requested under the number of the filter ack before it. */
  ghost predicate FiltersTrusted(care: Care) {
    forall cmds, sources, id, incoming, writes, ops :: IsSession(care, cmds, sources, id, incoming, writes, ops) ==>
      AllPass(K.Play(incoming, writes, ops).trace, DecodeAll(C.StreamOf(incoming)))
  }

  ghost predicate AllPass(t: K.Trace, msgs: seq<Msg>) {
    && K.Shaped(t)
    && forall j, i :: 0 <= j < |msgs| && msgs[j].FrameMsg? && LastOk(msgs[..j]) == Some(i) ==>
         GotRequested(t, msgs, j, i)
  }

  ghost predicate GotRequested(t: K.Trace, msgs: seq<Msg>, j: nat, i: nat)
    requires K.Shaped(t)
  {
    && i < |msgs| && msgs[i].FiltersAckMsg? && j < |msgs| && msgs[j].FrameMsg?
    && exists x :: 0 <= x < |t.ops| && C.Writes(t.ops[x])
         && PassesRequest(K.PieceAt(t, x).request, msgs[i].seqNo, msgs[j].frame)
  }

  lemma AllFramesPass(
      cmds: seq<Command>, sources: ClientId -> (seq<Byte>, bool), id: ClientId, inbound: seq<Byte>,
      t: K.Trace, written: seq<Byte>)
    requires Wired(cmds, sources, id, inbound) && sources(id).0 <= written && K.GoodTrace(t, written) && K.Uncut(t)
    ensures AllPass(t, DecodeAll(inbound))
  {
    var msgs := DecodeAll(inbound);
    forall j, i | 0 <= j < |msgs| && msgs[j].FrameMsg? && LastOk(msgs[..j]) == Some(i)
      ensures GotRequested(t, msgs, j, i)
    {
      var x := FramesPassRequestedFilters(cmds, sources, id, inbound, t, written, j, i);
    }
  }

  lemma CarefulGetsFilters(care: Care)
    requires care != Careless
    ensures FiltersTrusted(care)
  {
    forall cmds, sources, id, incoming, writes, ops | IsSession(care, cmds, sources, id, incoming, writes, ops)
      ensures AllPass(K.Play(incoming, writes, ops).trace, DecodeAll(C.StreamOf(incoming)))
    {
      var s := CarefulSession(care, cmds, sources, id, incoming, writes, ops);
      AllFramesPass(cmds, sources, id, C.StreamOf(incoming), s.trace, s.conn.written);
    }
  }

  lemma {:induction false} UnaskedFilters(n: U64, q: Request)
      returns (cmds: seq<Command>, sources: ClientId -> (seq<Byte>, bool), incoming: seq<C.ReadEvent>,
               writes: seq<C.WriteEvent>, ops: seq<C.Op>)
    requires n != 0 && q == SmallFilter(n)
    ensures IsSession(Careless, cmds, sources, 1, incoming, writes, ops)
    ensures !AllPass(K.Play(incoming, writes, ops).trace, DecodeAll(C.StreamOf(incoming)))
  {
    var b, s;
    cmds, sources, b, s := FiltersCanLie(0, n, q, SendFrame(1, false, FIRST));
    CutIsSession(cmds, sources, 0, q, b, s);
    NeverRequested(s.trace, DecodeAll(C.StreamOf(TwoReads(b))));
    incoming, writes, ops := TwoReads(b), CutWrites(SEND_FRAME_HDR_LEN + Carrier(0, q).dlc), CutOps(0, q);
  }

  /** Filters can be relied on under the same condition. */
  lemma FiltersTrustedIff(care: Care)
    ensures FiltersTrusted(care) <==> care != Careless
  {
    if care != Careless {
      CarefulGetsFilters(care);
    } else {
      var cmds, sources, incoming, writes, ops := UnaskedFilters(9, SmallFilter(9));
    }
  }

  lemma NeverRequested(t: K.Trace, msgs: seq<Msg>)
    requires forall k :: 0 <= k < |t.ops| ==> t.ops[k].DoSend?
    requires |msgs| > 1 && msgs[|msgs| - 1].FrameMsg? && LastOk(msgs[..|msgs| - 1]) == Some(|msgs| - 2)
    ensures !AllPass(t, msgs)
  {
    assert K.Shaped(t) ==> !GotRequested(t, msgs, |msgs| - 1, |msgs| - 2);
  }
}
